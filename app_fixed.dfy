/**
 * The helpers of the Flask app in web_app/app_fixed.py: filtering the
 * transcripts by the four request filters, and the counts shown on the
 * template page.
 */
module AppFixed {
  import opened Wrappers
  import opened Json
  import opened Tally
  import opened WebShared

  // ------------------------------------------------------------- filtering

  /** The filters in the order `filter_transcripts` applies them. */
  const FilterKeys: seq<string> := ["channel", "category", "severity", "brand"]

  /**
   * One filter step: skipped when `filters.get(key)` is 'all'; otherwise the
   * records whose field equals `filters[key]`, which raises KeyError for a
   * missing key as soon as a record is left to compare.
   */
  function Narrow(filtered: Result<seq<Record>>, filters: Record, key: string): Result<seq<Record>> {
    match filtered
    case Failure(e) => Failure(e)
    case Ok(ts) =>
      if Get(filters, key, Null) == Str("all") then Ok(ts)
      else if key in filters then Ok(Select(ts, key, filters[key]))
      else if ts == [] then Ok([])
      else Failure("KeyError: '" + key + "'")
  }

  /** The filter steps for `keys`, in order. */
  function FilterOn(ts: seq<Record>, filters: Record, keys: seq<string>): Result<seq<Record>>
    decreases |keys|
  {
    if keys == [] then Ok(ts)
    else Narrow(FilterOn(ts, filters, keys[..|keys| - 1]), filters, keys[|keys| - 1])
  }

  /** `filter_transcripts`. */
  function FilterTranscripts(ts: seq<Record>, filters: Record): Result<seq<Record>> {
    FilterOn(ts, filters, FilterKeys)
  }

  /** The conditions the filters impose: one per key whose filter value is not 'all'. */
  function Active(filters: Record, keys: seq<string>): seq<Condition>
    decreases |keys|
  {
    if keys == [] then []
    else
      var key := keys[|keys| - 1];
      Active(filters, keys[..|keys| - 1])
        + (if Get(filters, key, Null) == Str("all") then [] else [(key, Get(filters, key, Null))])
  }

  /**
   * The steps narrow the list like one pass keeping the records that equal
   * every filter value other than 'all'.
   */
  lemma {:induction false} FilterOnIsOnePass(ts: seq<Record>, filters: Record, keys: seq<string>)
    ensures FilterOn(ts, filters, keys).Ok? ==> FilterOn(ts, filters, keys).value == Keep(ts, Active(filters, keys))
    decreases |keys|
  {
    if keys == [] {
      KeepNothingRemoved(ts);
    } else {
      var init := keys[..|keys| - 1];
      var key := keys[|keys| - 1];
      FilterOnIsOnePass(ts, filters, init);
      var conds := Active(filters, init);
      var value := Get(filters, key, Null);
      assert FilterOn(ts, filters, keys) == Narrow(FilterOn(ts, filters, init), filters, key);
      if FilterOn(ts, filters, keys).Ok? {
        var before := FilterOn(ts, filters, init).value;
        assert before == Keep(ts, conds);
        if value == Str("all") {
          assert Active(filters, keys) == conds + [] == conds;
          assert FilterOn(ts, filters, keys).value == before;
        } else {
          assert Active(filters, keys) == conds + [(key, value)];
          KeepThenSelect(ts, conds, key, value);
          if key in filters {
            assert FilterOn(ts, filters, keys).value == Select(before, key, value);
          } else {
            assert before == [] && FilterOn(ts, filters, keys).value == [];
            assert Select([], key, value) == [];
          }
        }
      }
    }
  }

  /** The filter on `keys[j]` is missing while records matching the filters before it remain. */
  predicate StuckAt(ts: seq<Record>, filters: Record, keys: seq<string>, j: nat) {
    j < |keys| && keys[j] !in filters && Keep(ts, Active(filters, keys[..j])) != []
  }

  /** The steps fail exactly when a missing filter key is reached while records remain. */
  lemma {:induction false} FilterOnFails(ts: seq<Record>, filters: Record, keys: seq<string>)
    ensures FilterOn(ts, filters, keys).Failure? <==> exists j: nat :: StuckAt(ts, filters, keys, j)
    decreases |keys|
  {
    if keys != [] {
      var init := keys[..|keys| - 1];
      var key := keys[|keys| - 1];
      FilterOnFails(ts, filters, init);
      FilterOnIsOnePass(ts, filters, init);
      forall j: nat | j < |init|
        ensures StuckAt(ts, filters, keys, j) == StuckAt(ts, filters, init, j)
      {
        assert keys[..j] == init[..j] && keys[j] == init[j];
      }
      assert keys[..|init|] == init;
      if FilterOn(ts, filters, init).Failure? {
        var j: nat :| StuckAt(ts, filters, init, j);
        assert StuckAt(ts, filters, keys, j);
      } else if FilterOn(ts, filters, keys).Failure? {
        assert StuckAt(ts, filters, keys, |init|);
      } else {
        forall j: nat
          ensures !StuckAt(ts, filters, keys, j)
        {
          if j == |init| {
            assert !(key !in filters && Keep(ts, Active(filters, init)) != []);
          }
        }
      }
    }
  }

  /** With every filter 'all', no condition is imposed. */
  lemma {:induction false} NoneActive(filters: Record, keys: seq<string>)
    requires forall i :: 0 <= i < |keys| ==> Get(filters, keys[i], Null) == Str("all")
    ensures Active(filters, keys) == []
    decreases |keys|
  {
    if keys != [] {
      NoneActive(filters, keys[..|keys| - 1]);
    }
  }

  /**
   * `filter_transcripts` keeps, in order, exactly the records that equal
   * each filter whose value is not 'all'; with every filter 'all' it returns
   * its input unchanged. A missing filter key fails it as soon as records
   * remain to compare.
   */
  lemma FilterTranscriptsSpec(ts: seq<Record>, filters: Record)
    ensures FilterTranscripts(ts, filters).Ok? ==>
      FilterTranscripts(ts, filters).value == Keep(ts, Active(filters, FilterKeys))
    ensures (forall k :: k in FilterKeys ==> k in filters) ==> FilterTranscripts(ts, filters).Ok?
    ensures (forall k :: k in FilterKeys ==> Get(filters, k, Null) == Str("all")) ==>
      FilterTranscripts(ts, filters) == Ok(ts)
    ensures ts != [] && "channel" !in filters ==> FilterTranscripts(ts, filters).Failure?
  {
    FilterOnIsOnePass(ts, filters, FilterKeys);
    FilterOnFails(ts, filters, FilterKeys);
    if forall k :: k in FilterKeys ==> Get(filters, k, Null) == Str("all") {
      NoneActive(filters, FilterKeys);
      KeepNothingRemoved(ts);
    }
    if ts != [] && "channel" !in filters {
      assert FilterKeys[0] == "channel" && FilterKeys[..0] == [];
      KeepNothingRemoved(ts);
      assert StuckAt(ts, filters, FilterKeys, 0);
    }
  }

  // ---------------------------------------------------------- template stats

  /** The statistics `calculate_template_stats` returns. */
  datatype TemplateStats = TemplateStats(total: nat, channels: map<Value, nat>, severities: map<Value, nat>)

  /** The severity counter starts with High, Medium and Low at 0. */
  const SeverityStart: map<Value, nat> := map[Str("High") := 0, Str("Medium") := 0, Str("Low") := 0]

  /**
   * One counting loop of `calculate_template_stats`: for each transcript,
   * its `key` field (`default` when missing) is counted into the counter
   * that starts as `start`. A list or dict cannot be a dict key and fails
   * the loop.
   */
  method CountBy(ts: seq<Record>, key: string, default: Value, start: map<Value, nat>)
    returns (r: Result<map<Value, nat>>)
    ensures r.Ok? <==> AllHashable(Column(ts, key, default))
    ensures r.Ok? ==> r.value == Tallied(start, Column(ts, key, default))
  {
    ghost var col := Column(ts, key, default);
    var counts := start;
    var i := 0;
    while i < |ts|
      invariant i <= |ts|
      invariant AllHashable(col[..i])
      invariant counts == Tallied(start, col[..i])
    {
      var value := Get(ts[i], key, default);
      if !Hashable(value) {
        assert col[i] == value;
        return Failure("TypeError: unhashable type");
      }
      assert col[i] == value;
      AllHashableNext(col, i);
      TalliedNext(start, col, i);
      counts := counts[value := Count0(counts, value) + 1];
      i := i + 1;
    }
    assert col[..i] == col;
    return Ok(counts);
  }

  /**
   * `calculate_template_stats`: the number of transcripts, then each
   * transcript's channel ('Unknown' when missing) counted, then each
   * severity ('Medium' when missing) counted on top of the three levels.
   */
  method CalculateTemplateStats(ts: seq<Record>) returns (r: Result<TemplateStats>)
    ensures r.Ok? <==>
      AllHashable(Column(ts, "channel", Str("Unknown"))) && AllHashable(Column(ts, "severity", Str("Medium")))
    ensures r.Ok? ==> r.value == TemplateStats(|ts|,
      Tallied(map[], Column(ts, "channel", Str("Unknown"))),
      Tallied(SeverityStart, Column(ts, "severity", Str("Medium"))))
  {
    var channels := CountBy(ts, "channel", Str("Unknown"), map[]);
    if channels.Failure? {
      return Failure(channels.error);
    }
    var severities := CountBy(ts, "severity", Str("Medium"), SeverityStart);
    if severities.Failure? {
      return Failure(severities.error);
    }
    return Ok(TemplateStats(|ts|, channels.value, severities.value));
  }

  /**
   * The counters of `calculate_template_stats`: every channel count is the
   * number of transcripts with that channel and the counts add up to the
   * total; High, Medium and Low are always keys, and the severity counts
   * likewise add up to the total.
   */
  lemma TemplateStatsCounts(ts: seq<Record>)
    ensures var channels := Tallied(map[], Column(ts, "channel", Str("Unknown")));
      MapSum(channels) == |ts| &&
      forall v :: Count0(channels, v) == Occ(Column(ts, "channel", Str("Unknown")), v)
    ensures var severities := Tallied(SeverityStart, Column(ts, "severity", Str("Medium")));
      MapSum(severities) == |ts| &&
      Str("High") in severities && Str("Medium") in severities && Str("Low") in severities &&
      forall v :: Count0(severities, v) == Occ(Column(ts, "severity", Str("Medium")), v)
  {
    TalliedSpec(map[], Column(ts, "channel", Str("Unknown")));
    var none: map<Value, nat> := map[];
    assert MapSum(none) == 0;
    TalliedSpec(SeverityStart, Column(ts, "severity", Str("Medium")));
    MapSumZero(SeverityStart);
  }
}
