/**
 * The original Flask app in web_app/app.py: the transcript filter of
 * `TestCaseWebApp` and the counts of the dashboard page.
 */
module WebApp {
  import opened Wrappers
  import opened Json
  import opened Tally
  import opened WebShared

  // ------------------------------------------------------------- filtering

  /** The filters `TestCaseWebApp.filter_transcripts` reads, in order; brand is not among them. */
  const DashboardKeys: seq<string> := ["channel", "category", "severity"]

  /** A filter is applied when its value is truthy and not 'all'. */
  predicate Applies(filters: Record, key: string) {
    Truthy(Get(filters, key, Null)) && filters[key] != Str("all")
  }

  /** The filter steps for `keys`, in order; a step that does not apply leaves the list as it is. */
  function FilterOn(ts: seq<Record>, filters: Record, keys: seq<string>): seq<Record>
    decreases |keys|
  {
    if keys == [] then ts
    else
      var filtered := FilterOn(ts, filters, keys[..|keys| - 1]);
      var key := keys[|keys| - 1];
      if Applies(filters, key) then Select(filtered, key, filters[key]) else filtered
  }

  /** `TestCaseWebApp.filter_transcripts`. */
  function FilterTranscripts(ts: seq<Record>, filters: Record): seq<Record> {
    FilterOn(ts, filters, DashboardKeys)
  }

  /** The conditions the applied filters impose. */
  function Applied(filters: Record, keys: seq<string>): seq<Condition>
    decreases |keys|
  {
    if keys == [] then []
    else
      var key := keys[|keys| - 1];
      Applied(filters, keys[..|keys| - 1]) + (if Applies(filters, key) then [(key, filters[key])] else [])
  }

  /** The steps narrow the list like one pass keeping the records that equal every applied filter. */
  lemma {:induction false} FilterOnIsOnePass(ts: seq<Record>, filters: Record, keys: seq<string>)
    ensures FilterOn(ts, filters, keys) == Keep(ts, Applied(filters, keys))
    decreases |keys|
  {
    if keys == [] {
      KeepNothingRemoved(ts);
    } else {
      var init := keys[..|keys| - 1];
      var key := keys[|keys| - 1];
      FilterOnIsOnePass(ts, filters, init);
      var conds := Applied(filters, init);
      if Applies(filters, key) {
        KeepThenSelect(ts, conds, key, filters[key]);
      } else {
        assert Applied(filters, keys) == conds + [] == conds;
      }
    }
  }

  /** Filters on keys outside `keys` impose nothing. */
  lemma {:induction false} AppliedOnlyReads(filters: Record, keys: seq<string>, other: string, v: Value)
    requires other !in keys
    ensures Applied(filters[other := v], keys) == Applied(filters, keys)
    decreases |keys|
  {
    if keys != [] {
      AppliedOnlyReads(filters, keys[..|keys| - 1], other, v);
    }
  }

  /** With no filter applying, no condition is imposed. */
  lemma {:induction false} NoneApplied(filters: Record, keys: seq<string>)
    requires forall i :: 0 <= i < |keys| ==> !Applies(filters, keys[i])
    ensures Applied(filters, keys) == []
    decreases |keys|
  {
    if keys != [] {
      NoneApplied(filters, keys[..|keys| - 1]);
    }
  }

  /**
   * `filter_transcripts` keeps, in order, exactly the records that equal
   * each filter whose value is truthy and not 'all' (see `KeepInOrder`); a
   * missing or empty filter filters nothing, and the brand filter is never
   * applied, whatever its value.
   */
  lemma FilterTranscriptsSpec(ts: seq<Record>, filters: Record, brand: Value)
    ensures FilterTranscripts(ts, filters) == Keep(ts, Applied(filters, DashboardKeys))
    ensures (forall k :: k in DashboardKeys ==> !Applies(filters, k)) ==> FilterTranscripts(ts, filters) == ts
    ensures FilterTranscripts(ts, filters["brand" := brand]) == FilterTranscripts(ts, filters)
  {
    FilterOnIsOnePass(ts, filters, DashboardKeys);
    FilterOnIsOnePass(ts, filters["brand" := brand], DashboardKeys);
    AppliedOnlyReads(filters, DashboardKeys, "brand", brand);
    if forall k :: k in DashboardKeys ==> !Applies(filters, k) {
      NoneApplied(filters, DashboardKeys);
      KeepNothingRemoved(ts);
    }
  }

  // ------------------------------------------------------------ dashboard

  /** The three counters of the dashboard page. */
  datatype Counters = Counters(channels: map<Value, nat>, categories: map<Value, nat>, severities: map<Value, nat>)

  /** The statistics the dashboard page shows. */
  datatype DashboardStats = DashboardStats(total: nat, counts: Counters)

  /**
   * One iteration of the counting loop of `index`: the transcript's
   * channel, category and severity ('Unknown' when missing) each counted.
   * A list or dict among them cannot be a dict key and fails the page.
   */
  function CountTranscript(c: Counters, t: Record): Result<Counters> {
    var channel := Get(t, "channel", Str("Unknown"));
    var category := Get(t, "category", Str("Unknown"));
    var severity := Get(t, "severity", Str("Unknown"));
    if !Hashable(channel) || !Hashable(category) || !Hashable(severity) then Failure("TypeError: unhashable type")
    else Ok(Counters(
      c.channels[channel := Count0(c.channels, channel) + 1],
      c.categories[category := Count0(c.categories, category) + 1],
      c.severities[severity := Count0(c.severities, severity) + 1]))
  }

  /** The counters after the loop has run over `ts`. */
  function CountAll(ts: seq<Record>): Result<Counters>
    decreases |ts|
  {
    if ts == [] then Ok(Counters(map[], map[], map[]))
    else
      match CountAll(ts[..|ts| - 1])
      case Failure(e) => Failure(e)
      case Ok(c) => CountTranscript(c, ts[|ts| - 1])
  }

  /** The counting loop of `index` and the statistics it hands to the page. */
  method DashboardCounts(ts: seq<Record>) returns (r: Result<DashboardStats>)
    ensures r.Ok? <==> CountAll(ts).Ok?
    ensures r.Ok? ==> r.value == DashboardStats(|ts|, CountAll(ts).value)
  {
    var channels: map<Value, nat> := map[];
    var categories: map<Value, nat> := map[];
    var severities: map<Value, nat> := map[];
    var i := 0;
    while i < |ts|
      invariant i <= |ts|
      invariant CountAll(ts[..i]) == Ok(Counters(channels, categories, severities))
    {
      var channel := Get(ts[i], "channel", Str("Unknown"));
      var category := Get(ts[i], "category", Str("Unknown"));
      var severity := Get(ts[i], "severity", Str("Unknown"));
      CountAllNext(ts, i);
      if !Hashable(channel) || !Hashable(category) || !Hashable(severity) {
        CountAllFailureStays(ts, i + 1);
        return Failure("TypeError: unhashable type");
      }
      ghost var before := Counters(channels, categories, severities);
      channels := channels[channel := Count0(channels, channel) + 1];
      categories := categories[category := Count0(categories, category) + 1];
      severities := severities[severity := Count0(severities, severity) + 1];
      assert CountTranscript(before, ts[i]) == Ok(Counters(channels, categories, severities));
      i := i + 1;
    }
    assert ts[..i] == ts;
    return Ok(DashboardStats(|ts|, Counters(channels, categories, severities)));
  }

  /** The loop over one more transcript counts it on top of the counters so far. */
  lemma CountAllNext(ts: seq<Record>, i: nat)
    requires i < |ts|
    ensures CountAll(ts[..i + 1]) ==
      match CountAll(ts[..i])
      case Failure(e) => Failure(e)
      case Ok(c) => CountTranscript(c, ts[i])
  {
    assert ts[..i + 1][..i] == ts[..i];
  }

  /** Once a prefix fails, the whole loop fails. */
  lemma {:induction false} CountAllFailureStays(ts: seq<Record>, n: nat)
    requires n <= |ts| && CountAll(ts[..n]).Failure?
    ensures CountAll(ts).Failure?
    decreases |ts| - n
  {
    if n < |ts| {
      assert ts[..n + 1][..n] == ts[..n];
      CountAllFailureStays(ts, n + 1);
    } else {
      assert ts[..n] == ts;
    }
  }

  /** The loop succeeds exactly when every channel, category and severity can be a dict key. */
  lemma {:induction false} CountAllSucceeds(ts: seq<Record>)
    ensures CountAll(ts).Ok? <==> (AllHashable(Column(ts, "channel", Str("Unknown"))) &&
      AllHashable(Column(ts, "category", Str("Unknown"))) && AllHashable(Column(ts, "severity", Str("Unknown"))))
    decreases |ts|
  {
    if ts != [] {
      CountAllSucceeds(ts[..|ts| - 1]);
      ColumnOfPrefix(ts, "channel");
      ColumnOfPrefix(ts, "category");
      ColumnOfPrefix(ts, "severity");
    }
  }

  /** When the loop succeeds, each counter is the tally of its column. */
  lemma {:induction false} CountAllTallies(ts: seq<Record>)
    requires CountAll(ts).Ok?
    ensures CountAll(ts).value == Counters(
      Tallied(map[], Column(ts, "channel", Str("Unknown"))),
      Tallied(map[], Column(ts, "category", Str("Unknown"))),
      Tallied(map[], Column(ts, "severity", Str("Unknown"))))
    decreases |ts|
  {
    if ts == [] {
      assert Column(ts, "channel", Str("Unknown")) == [];
      assert Column(ts, "category", Str("Unknown")) == [];
      assert Column(ts, "severity", Str("Unknown")) == [];
    } else {
      var init := ts[..|ts| - 1];
      assert CountAll(init).Ok?;
      CountAllTallies(init);
      var c := CountAll(init).value;
      assert CountAll(ts) == CountTranscript(c, ts[|ts| - 1]);
      ColumnTallyNext(ts, "channel");
      ColumnTallyNext(ts, "category");
      ColumnTallyNext(ts, "severity");
    }
  }

  /** Tallying a column counts its last value on top of the tally of the rest. */
  lemma ColumnTallyNext(ts: seq<Record>, key: string)
    requires ts != []
    ensures var m := Tallied(map[], Column(ts[..|ts| - 1], key, Str("Unknown")));
      var v := Get(ts[|ts| - 1], key, Str("Unknown"));
      Tallied(map[], Column(ts, key, Str("Unknown"))) == m[v := Count0(m, v) + 1]
  {
    ColumnOfPrefix(ts, key);
  }

  /** A column of all but the last record is the column without its last value. */
  lemma ColumnOfPrefix(ts: seq<Record>, key: string)
    requires ts != []
    ensures var col := Column(ts, key, Str("Unknown"));
      col[..|ts| - 1] == Column(ts[..|ts| - 1], key, Str("Unknown")) &&
      (AllHashable(col) <==> AllHashable(col[..|ts| - 1]) && Hashable(col[|ts| - 1]))
  {
    var col := Column(ts, key, Str("Unknown"));
    assert col == col[..|ts| - 1] + [col[|ts| - 1]];
  }

  /**
   * Each dashboard counter adds up to the number of transcripts, and each
   * count is the number of transcripts holding that value.
   */
  lemma DashboardCountsAddUp(ts: seq<Record>, key: string)
    ensures var col := Column(ts, key, Str("Unknown"));
      MapSum(Tallied(map[], col)) == |ts| &&
      forall v :: Count0(Tallied(map[], col), v) == Occ(col, v)
  {
    TalliedSpec(map[], Column(ts, key, Str("Unknown")));
    var none: map<Value, nat> := map[];
    assert MapSum(none) == 0;
  }
}
