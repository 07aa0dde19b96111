/** Weight tables: a sequence of weightages read into a map from fault name to weight. */
module Weights {
  import opened Strconv
  import opened ExperimentModel

  /** The map a loop `m[w.FaultName] = w.Weightage` over `ws` builds: a later entry overrides an earlier one. */
  function WeightMapOf(ws: seq<Weightage>): (m: map<string, Int64>)
    ensures ws != [] ==> ws[|ws| - 1].faultName in m && m[ws[|ws| - 1].faultName] == ws[|ws| - 1].weightage
  {
    if ws == [] then map[] else WeightMapOf(ws[..|ws| - 1])[ws[|ws| - 1].faultName := ws[|ws| - 1].weightage]
  }

  /** The fault names of `ws`, in order, duplicates kept. */
  function Names(ws: seq<Weightage>): (r: seq<string>)
    ensures |r| == |ws| && forall i | 0 <= i < |ws| :: r[i] == ws[i].faultName
  {
    seq(|ws|, i requires 0 <= i < |ws| => ws[i].faultName)
  }

  /** The sum of all weights of `ws`, duplicates included. */
  function WeightSum(ws: seq<Weightage>): (r: int)
    ensures (forall i | 0 <= i < |ws| :: ws[i].weightage >= 0) ==> r >= 0
  {
    if ws == [] then 0 else WeightSum(ws[..|ws| - 1]) + ws[|ws| - 1].weightage
  }

  /** The map's keys are exactly the names that occur in `ws`. */
  lemma {:induction false} WeightMapKeys(ws: seq<Weightage>)
    ensures WeightMapOf(ws).Keys == set i | 0 <= i < |ws| :: ws[i].faultName
  {
    if ws != [] {
      var init := ws[..|ws| - 1];
      WeightMapKeys(init);
      assert (set i | 0 <= i < |ws| :: ws[i].faultName)
          == (set i | 0 <= i < |init| :: init[i].faultName) + {ws[|ws| - 1].faultName};
    }
  }

  /** A name maps to the weight of its last entry in `ws`. */
  lemma {:induction false} WeightMapLastWins(ws: seq<Weightage>, i: nat)
    requires i < |ws|
    requires forall j | i < j < |ws| :: ws[j].faultName != ws[i].faultName
    ensures ws[i].faultName in WeightMapOf(ws) && WeightMapOf(ws)[ws[i].faultName] == ws[i].weightage
  {
    if i < |ws| - 1 {
      WeightMapLastWins(ws[..|ws| - 1], i);
    }
  }

  /** Entries appended after `ws` under other names leave every weight of `ws` as it was. */
  lemma {:induction false} WeightMapAppendOthers(ws: seq<Weightage>, extra: seq<Weightage>, name: string)
    requires forall j | 0 <= j < |extra| :: extra[j].faultName != name
    ensures name in WeightMapOf(ws + extra) <==> name in WeightMapOf(ws)
    ensures name in WeightMapOf(ws) ==> WeightMapOf(ws + extra)[name] == WeightMapOf(ws)[name]
    decreases |extra|
  {
    if extra != [] {
      var init := extra[..|extra| - 1];
      assert (ws + extra)[..|ws + extra| - 1] == ws + init;
      WeightMapAppendOthers(ws, init, name);
    } else {
      assert ws + extra == ws;
    }
  }

  /** Every name of `extra` is a key of the map of `ws + extra`. */
  lemma {:induction false} WeightMapAppendCovers(ws: seq<Weightage>, extra: seq<Weightage>, j: nat)
    requires j < |extra|
    ensures extra[j].faultName in WeightMapOf(ws + extra)
    decreases |extra|
  {
    var init := extra[..|extra| - 1];
    assert (ws + extra)[..|ws + extra| - 1] == ws + init;
    if j < |extra| - 1 {
      WeightMapAppendCovers(ws, init, j);
    }
  }

  /** The loop of the service that reads a weightage list into a map. */
  method BuildWeightMap(ws: seq<Weightage>) returns (m: map<string, Int64>)
    ensures m == WeightMapOf(ws)
  {
    m := map[];
    var i := 0;
    while i < |ws|
      invariant 0 <= i <= |ws|
      invariant m == WeightMapOf(ws[..i])
    {
      assert ws[..i + 1][..i] == ws[..i];
      m := m[ws[i].faultName := ws[i].weightage];
      i := i + 1;
    }
    assert ws[..i] == ws;
  }
}
