/** The diagnosis store as an object that changes in place (crates/pnio/src/diag.rs). Its ordered map is
    a map whose keys are visited in ascending order. */
module DiagMachine {
  import opened Wire
  import opened Rta
  import opened Connect
  import S = Diag

  /** There is only one smallest key. */
  lemma MinUnique(keys: set<S.Key>, k: S.Key)
    requires keys != {} && S.IsMin(k, keys)
    ensures k == S.MinKey(keys)
  {
    hide S.Rank;
    var m := S.MinKey(keys);
    assert S.Rank(k) == S.Rank(m);
    S.RankInjective(k, m);
  }

  method Smallest(keys: set<S.Key>) returns (least: S.Key)
    requires keys != {}
    ensures least == S.MinKey(keys)
  {
    hide S.Rank;
    least :| least in keys;
    var rest := keys - {least};
    while rest != {}
      invariant rest <= keys && least in keys
      invariant forall k :: k in keys && k !in rest ==> S.Rank(least) <= S.Rank(k)
      decreases |rest|
    {
      var k :| k in rest;
      rest := rest - {k};
      if S.Rank(k) < S.Rank(least) { least := k; }
    }
    MinUnique(keys, least);
  }

  lemma SortedFirst(keys: set<S.Key>, k: S.Key)
    requires keys != {} && k == S.MinKey(keys)
    ensures S.SortedKeys(keys) == [k] + S.SortedKeys(keys - {k})
  {
    hide S.Rank;
  }

  lemma SortedNone()
    ensures S.SortedKeys({}) == []
  {
  }

  /** The keys as the ordered map visits them. */
  method InOrder(keys: set<S.Key>) returns (s: seq<S.Key>)
    ensures s == S.SortedKeys(keys)
  {
    hide S.SortedKeys, S.IsMin;
    s := [];
    var rest := keys;
    assert [] + S.SortedKeys(keys) == S.SortedKeys(keys);
    while rest != {}
      invariant S.SortedKeys(keys) == s + S.SortedKeys(rest)
      decreases |rest|
    {
      var k := Smallest(rest);
      SortedFirst(rest, k);
      assert s + ([k] + S.SortedKeys(rest - {k})) == s + [k] + S.SortedKeys(rest - {k});
      s := s + [k];
      rest := rest - {k};
    }
    SortedNone();
    assert s + [] == s;
  }

  /** What one key adds to the replay. */
  ghost function Announced(store: S.Store, k: S.Key): seq<AlarmNotification>
    requires k in store.active
  {
    var d := store.active[k];
    match S.Info(store.submodules, d.slot)
    case Some(info) => [S.BuildNotification(store.active, info, d, Diagnosis, Appears)]
    case None => []
  }

  lemma AnnounceNext(store: S.Store, keys: seq<S.Key>, i: nat)
    requires i < |keys| && forall k <- keys[i..] :: k in store.active
    ensures keys[i] in store.active && forall k <- keys[i + 1..] :: k in store.active
    ensures S.Announce(store, keys[i..]) == Announced(store, keys[i]) + S.Announce(store, keys[i + 1..])
  {
    hide S.Info, S.BuildNotification;
    var tail := keys[i..];
    assert tail[0] == keys[i] && tail[1..] == keys[i + 1..];
    assert tail[0] in tail && forall k <- tail[1..] :: k in tail;
  }

  lemma AnnounceEnds(store: S.Store)
    ensures S.Announce(store, []) == []
  {
  }

  class DiagStore {
    const submodules: seq<S.SubmoduleInfo>
    var active: map<S.Key, S.ActiveDiagnosis>

    ghost function Value(): S.Store
      reads this
    {
      S.Store(submodules, active)
    }

    constructor (model: DeviceModel)
      ensures Value() == S.FromModel(model)
    {
      submodules := S.Infos(model.slots);
      active := map[];
    }

    method Raise(d: S.ActiveDiagnosis) returns (n: Option<AlarmNotification>)
      modifies this
      ensures (Value(), n) == S.Raise(old(Value()), d)
    {
      var info := S.Info(submodules, d.slot);
      if info.None? { return None; }
      var d' := d.(direction := info.value.direction);
      var key := S.KeyOf(d');
      if key in active && active[key].severity == d'.severity { return None; }
      active := active[key := d'];
      return Some(S.BuildNotification(active, info.value, d', Diagnosis, Appears));
    }

    method Clear(slot: u16, channel: u16, error: S.ErrorCode) returns (n: Option<AlarmNotification>)
      modifies this
      ensures (Value(), n) == S.ClearOne(old(Value()), slot, channel, error)
    {
      var key := (slot, channel, error);
      if key !in active { return None; }
      var d := active[key];
      active := active - {key};
      var info := S.Info(submodules, slot);
      if info.None? { return None; }
      var spec := if S.AnyOnChannel(active, slot, channel) then DisappearsOthersRemain else Disappears;
      return Some(S.BuildNotification(active, info.value, d, DiagnosisDisappears, spec));
    }

    /** Every active diagnosis announced again, in key order. */
    method Replay() returns (ns: seq<AlarmNotification>)
      ensures ns == S.Replay(Value())
    {
      hide S.SortedKeys, S.Announce, S.Info, S.BuildNotification, S.Rank;
      var keys := InOrder(active.Keys);
      ns := [];
      ghost var store := Value();
      AnnounceEnds(store);
      assert keys[0..] == keys;
      assert [] + S.Announce(store, keys) == S.Announce(store, keys);
      for i := 0 to |keys|
        invariant forall k <- keys[i..] :: k in store.active
        invariant S.Replay(store) == ns + S.Announce(store, keys[i..])
      {
        AnnounceNext(store, keys, i);
        ghost var rest, was := S.Announce(store, keys[i + 1..]), ns;
        var d := active[keys[i]];
        var info := S.Info(submodules, d.slot);
        if info.Some? { ns := ns + [S.BuildNotification(active, info.value, d, Diagnosis, Appears)]; }
        assert was + (Announced(store, keys[i]) + rest) == ns + rest;
      }
      assert keys[|keys|..] == [];
      assert ns + [] == ns;
    }

    /** The active diagnoses in key order. */
    method Active() returns (list: seq<S.ActiveDiagnosis>)
      ensures list == S.ActiveList(Value())
    {
      hide S.SortedKeys;
      var keys := InOrder(active.Keys);
      list := [];
      for i := 0 to |keys|
        invariant |list| == i && forall k :: 0 <= k < i ==> keys[k] in active && list[k] == active[keys[k]]
      {
        assert keys[i] in keys;
        list := list + [active[keys[i]]];
      }
    }

    method ProblemIndicator() returns (b: bool)
      ensures b == S.ProblemIndicator(Value())
    {
      var rest := active.Keys;
      while rest != {}
        invariant rest <= active.Keys
        invariant forall k :: k in active.Keys && k !in rest ==> !active[k].severity.SevFault?
        decreases |rest|
      {
        var k :| k in rest;
        if active[k].severity.SevFault? { return true; }
        rest := rest - {k};
      }
      return false;
    }
  }
}
