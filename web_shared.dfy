/**
 * What the three Flask apps share: narrowing a list of transcripts by
 * field values, and the upload extension check.
 */
module WebShared {
  import opened Text
  import opened Json

  // ------------------------------------------------------------- filtering

  /** `[t for t in ts if t.get(key) == value]`. */
  function Select(ts: seq<Record>, key: string, value: Value): seq<Record>
    decreases |ts|
  {
    if ts == [] then []
    else
      var t := ts[|ts| - 1];
      Select(ts[..|ts| - 1], key, value) + (if Get(t, key, Null) == value then [t] else [])
  }

  /** A filter condition: the field and the value a kept record holds in it. */
  type Condition = (string, Value)

  predicate MatchesAll(t: Record, conds: seq<Condition>) {
    forall i :: 0 <= i < |conds| ==> Get(t, conds[i].0, Null) == conds[i].1
  }

  /** One pass over the records, keeping those that meet every condition. */
  function Keep(ts: seq<Record>, conds: seq<Condition>): seq<Record>
    decreases |ts|
  {
    if ts == [] then []
    else
      var t := ts[|ts| - 1];
      Keep(ts[..|ts| - 1], conds) + (if MatchesAll(t, conds) then [t] else [])
  }

  /** The positions of the records `Keep` keeps. */
  function KeptPositions(ts: seq<Record>, conds: seq<Condition>): seq<nat>
    decreases |ts|
  {
    if ts == [] then []
    else
      KeptPositions(ts[..|ts| - 1], conds) + (if MatchesAll(ts[|ts| - 1], conds) then [|ts| - 1] else [])
  }

  /** The kept positions are strictly increasing positions of the input, one per kept record. */
  lemma {:induction false} KeptPositionsIncrease(ts: seq<Record>, conds: seq<Condition>)
    ensures var pos := KeptPositions(ts, conds);
      |pos| == |Keep(ts, conds)| <= |ts| &&
      (forall k :: 0 <= k < |pos| ==> pos[k] < |ts|) &&
      (forall k, l :: 0 <= k < l < |pos| ==> pos[k] < pos[l])
    decreases |ts|
  {
    if ts != [] {
      KeptPositionsIncrease(ts[..|ts| - 1], conds);
    }
  }

  /** A position is kept exactly when its record meets every condition. */
  lemma {:induction false} KeptPositionsMatch(ts: seq<Record>, conds: seq<Condition>)
    ensures forall j :: 0 <= j < |ts| ==> (j in KeptPositions(ts, conds) <==> MatchesAll(ts[j], conds))
    decreases |ts|
  {
    if ts != [] {
      var init := ts[..|ts| - 1];
      KeptPositionsMatch(init, conds);
      KeptPositionsIncrease(init, conds);
      var pos0 := KeptPositions(init, conds);
      forall j | 0 <= j < |ts|
        ensures j in KeptPositions(ts, conds) <==> MatchesAll(ts[j], conds)
      {
        if j < |init| {
          assert ts[j] == init[j];
        }
      }
    }
  }

  /** The k-th kept record is the input's record at the k-th kept position. */
  lemma {:induction false} KeptPositionsHold(ts: seq<Record>, conds: seq<Condition>)
    ensures var pos, kept := KeptPositions(ts, conds), Keep(ts, conds);
      |pos| == |kept| && forall k :: 0 <= k < |pos| ==> pos[k] < |ts| && ts[pos[k]] == kept[k]
    decreases |ts|
  {
    if ts != [] {
      var init := ts[..|ts| - 1];
      KeptPositionsHold(init, conds);
      var kept0, pos0 := Keep(init, conds), KeptPositions(init, conds);
      var kept, pos := Keep(ts, conds), KeptPositions(ts, conds);
      forall k | 0 <= k < |pos|
        ensures pos[k] < |ts| && ts[pos[k]] == kept[k]
      {
        if k < |pos0| {
          assert pos[k] == pos0[k] && kept[k] == kept0[k];
          assert ts[pos0[k]] == init[pos0[k]];
        }
      }
    }
  }

  /**
   * `Keep` is an order-preserving sublist: its k-th record sits at the k-th
   * of strictly increasing positions of the input, and a position is among
   * them exactly when its record meets every condition.
   */
  lemma KeepInOrder(ts: seq<Record>, conds: seq<Condition>)
    ensures var kept := Keep(ts, conds);
      var pos := KeptPositions(ts, conds);
      |pos| == |kept| <= |ts| &&
      (forall k :: 0 <= k < |pos| ==> pos[k] < |ts| && ts[pos[k]] == kept[k]) &&
      (forall k, l :: 0 <= k < l < |pos| ==> pos[k] < pos[l]) &&
      (forall j :: 0 <= j < |ts| ==> (j in pos <==> MatchesAll(ts[j], conds)))
  {
    KeptPositionsIncrease(ts, conds);
    KeptPositionsMatch(ts, conds);
    KeptPositionsHold(ts, conds);
  }

  /** With no condition every record is kept. */
  lemma {:induction false} KeepNothingRemoved(ts: seq<Record>)
    ensures Keep(ts, []) == ts
    decreases |ts|
  {
    if ts != [] {
      KeepNothingRemoved(ts[..|ts| - 1]);
    }
  }

  /** Narrowing the one-pass result by one more field is the one pass with that condition added. */
  lemma {:induction false} KeepThenSelect(ts: seq<Record>, conds: seq<Condition>, key: string, value: Value)
    ensures Select(Keep(ts, conds), key, value) == Keep(ts, conds + [(key, value)])
    decreases |ts|
  {
    if ts != [] {
      var init := ts[..|ts| - 1];
      var t := ts[|ts| - 1];
      KeepThenSelect(init, conds, key, value);
      var conds' := conds + [(key, value)];
      assert MatchesAll(t, conds') <==> MatchesAll(t, conds) && Get(t, key, Null) == value by {
        if MatchesAll(t, conds) && Get(t, key, Null) == value {
          forall i | 0 <= i < |conds'|
            ensures Get(t, conds'[i].0, Null) == conds'[i].1
          {
            if i < |conds| {
              assert conds'[i] == conds[i];
            }
          }
        }
        if MatchesAll(t, conds') {
          assert conds'[|conds|] == (key, value);
          forall i | 0 <= i < |conds|
            ensures Get(t, conds[i].0, Null) == conds[i].1
          {
            assert conds'[i] == conds[i];
          }
        }
      }
      var kept := Keep(init, conds);
      if MatchesAll(t, conds) {
        assert (kept + [t])[..|kept|] == kept;
      } else {
        assert kept + [] == kept;
      }
    }
  }

  // -------------------------------------------------------------- uploads

  const AllowedExtensions: set<string> := {"pdf", "txt", "json"}

  /**
   * `allowed_file`: the name contains a '.' and the text after its last
   * '.', lower-cased, is pdf, txt or json.
   */
  function AllowedFile(filename: string): bool {
    Contains(filename, ".") && LowerStr(filename[RFind(filename, ".") + 1..]) in AllowedExtensions
  }

  /**
   * A name split at a '.' after which no other '.' follows is allowed
   * exactly when the extension, lower-cased, is allowed; a name without
   * any '.' is never allowed.
   */
  lemma AllowedFileExtension(base: string, ext: string)
    requires '.' !in ext
    ensures AllowedFile(base + "." + ext) <==> LowerStr(ext) in AllowedExtensions
    ensures '.' !in base ==> !AllowedFile(base)
  {
    var name := base + "." + ext;
    var dot := |base|;
    assert name[dot] == '.';
    assert At(name, dot, ".");
    assert forall k :: dot < k < |name| ==> name[k] == ext[k - dot - 1];
    assert RFind(name, ".") == dot;
    assert name[dot + 1..] == ext;
  }
}
