/** The store of active channel diagnoses (crates/pnio/src/diag.rs) and what a controller can
    reconstruct from the notifications it produces. */
module Diag {
  import opened Wire
  import opened Rta
  import opened Connect

  /** `ChannelErrorType` codes the store raises: 1 (short circuit) .. 9 (error). */
  type ErrorCode = c: u16 | 1 <= c <= 9 witness 1

  datatype Severity = SevFault | SevMaintenanceRequired | SevMaintenanceDemanded

  datatype Direction = DirInput | DirOutput | DirInputOutput

  datatype ActiveDiagnosis = ActiveDiagnosis(slot: u16, channel: u16, error: ErrorCode, severity: Severity,
                                   direction: Direction)

  datatype SubmoduleInfo = SubmoduleInfo(slot: u16, subslot: u16, moduleIdent: u32, submoduleIdent: u32,
                                         direction: Direction)

  /** Slot, channel and error code. */
  type Key = (u16, u16, u16)

  datatype Store = Store(submodules: seq<SubmoduleInfo>, active: map<Key, ActiveDiagnosis>)

  function KeyOf(d: ActiveDiagnosis): Key { (d.slot, d.channel, d.error) }

  // --- from the device model ---------------------------------------------------------

  function InfoFor(s: SlotModel): Option<SubmoduleInfo> {
    match FindSubmodule(s.submodules, 1)
    case None => None
    case Some(sm) =>
      Some(SubmoduleInfo(s.slot, 1, s.moduleIdent, sm.submoduleIdent,
                         if sm.outputLen == 0 && sm.inputLen > 0 then DirInput
                         else if sm.inputLen == 0 && sm.outputLen > 0 then DirOutput
                         else DirInputOutput))
  }

  function Infos(slots: seq<SlotModel>): seq<SubmoduleInfo> {
    if slots == [] then []
    else
      (if slots[0].slot > 0 && InfoFor(slots[0]).Some? then [InfoFor(slots[0]).value] else [])
      + Infos(slots[1..])
  }

  function FromModel(model: DeviceModel): Store { Store(Infos(model.slots), map[]) }

  function Info(subs: seq<SubmoduleInfo>, slot: u16): (r: Option<SubmoduleInfo>)
    ensures r.Some? ==> r.value.slot == slot
  {
    if subs == [] then None else if subs[0].slot == slot then Some(subs[0]) else Info(subs[1..], slot)
  }

  predicate Knows(store: Store, slot: u16) { Info(store.submodules, slot).Some? }

  // --- notifications -------------------------------------------------------------------

  function MaintenanceOf(s: Severity): Maintenance {
    match s case SevFault => Fault case SevMaintenanceRequired => Required case SevMaintenanceDemanded => Demanded
  }

  function DirectionCode(d: Direction): u8 {
    match d case DirInput => 1 case DirOutput => 2 case DirInputOutput => 3
  }

  predicate AnyOnSlot(active: map<Key, ActiveDiagnosis>, slot: u16) { exists k <- active.Keys :: k.0 == slot }

  predicate AnyOnChannel(active: map<Key, ActiveDiagnosis>, slot: u16, channel: u16) {
    exists k <- active.Keys :: k.0 == slot && k.1 == channel
  }

  function BuildNotification(active: map<Key, ActiveDiagnosis>, info: SubmoduleInfo, d: ActiveDiagnosis,
                             alarmType: AlarmType, specifier: Specifier): AlarmNotification
  {
    var onSlot := AnyOnSlot(active, d.slot);
    AlarmNotification(
      alarmType, 0, info.slot, info.subslot, info.moduleIdent, info.submoduleIdent,
      AlarmSpecifier(0, onSlot, false, onSlot, active != map[]),
      USI_CHANNEL_DIAG,
      Channel(ChannelDiagnosis(d.channel,
                               ChannelProperties(0, false, MaintenanceOf(d.severity), specifier,
                                                 DirectionCode(info.direction)),
                               d.error)))
  }

  function Raise(store: Store, d: ActiveDiagnosis): (Store, Option<AlarmNotification>) {
    match Info(store.submodules, d.slot)
    case None => (store, None)
    case Some(info) =>
      var d' := d.(direction := info.direction);
      var key := KeyOf(d');
      if key in store.active && store.active[key].severity == d'.severity then (store, None)
      else
        var active := store.active[key := d'];
        (store.(active := active), Some(BuildNotification(active, info, d', Diagnosis, Appears)))
  }

  function ClearOne(store: Store, slot: u16, channel: u16, error: ErrorCode): (Store, Option<AlarmNotification>) {
    var key := (slot, channel, error);
    if key !in store.active then (store, None)
    else
      var active := store.active - {key};
      match Info(store.submodules, slot)
      case None => (store.(active := active), None)
      case Some(info) =>
        var spec := if AnyOnChannel(active, slot, channel) then DisappearsOthersRemain else Disappears;
        (store.(active := active),
         Some(BuildNotification(active, info, store.active[key], DiagnosisDisappears, spec)))
  }

  predicate ProblemIndicator(store: Store) { exists k <- store.active.Keys :: store.active[k].severity.SevFault? }

  // --- iteration in key order ------------------------------------------------------------

  function Rank(k: Key): nat { (k.0 * 0x1_0000 + k.1) * 0x1_0000 + k.2 }

  lemma RankInjective(a: Key, b: Key)
    requires Rank(a) == Rank(b)
    ensures a == b
  {
    var x, y := a.0 * 0x1_0000 + a.1, b.0 * 0x1_0000 + b.1;
    assert Rank(a) == x * 0x1_0000 + a.2 && Rank(b) == y * 0x1_0000 + b.2;
    assert x == y;
  }

  ghost predicate IsMin(k: Key, keys: set<Key>) { k in keys && forall m :: m in keys ==> Rank(k) <= Rank(m) }

  lemma {:induction false} MinOf(keys: set<Key>) returns (least: Key)
    requires keys != {}
    ensures IsMin(least, keys)
  {
    hide Rank;
    var k :| k in keys;
    var rest := keys - {k};
    assert keys == rest + {k};
    if rest == {} {
      least := k;
    } else {
      var m := MinOf(rest);
      least := if Rank(k) <= Rank(m) then k else m;
      forall n | n in keys ensures Rank(least) <= Rank(n) { if n != k { assert n in rest; } }
    }
  }

  ghost function MinKey(keys: set<Key>): (k: Key)
    requires keys != {}
    ensures IsMin(k, keys)
  {
    assert exists k :: IsMin(k, keys) by { var k := MinOf(keys); }
    var k :| IsMin(k, keys);
    k
  }

  /** The keys in ascending order, as the ordered map iterates. */
  ghost function SortedKeys(keys: set<Key>): (s: seq<Key>)
    ensures forall k :: k in s <==> k in keys
    decreases |keys|
  {
    if keys == {} then [] else [MinKey(keys)] + SortedKeys(keys - {MinKey(keys)})
  }

  predicate Before(a: Key, b: Key) { Rank(a) < Rank(b) }

  predicate Ascending(s: seq<Key>) { forall i, j :: 0 <= i < j < |s| ==> Before(s[i], s[j]) }

  lemma {:induction false} KeysAscend(keys: set<Key>)
    ensures Ascending(SortedKeys(keys))
    decreases |keys|
  {
    if keys != {} {
      hide Rank;
      var k := MinKey(keys);
      var rest := SortedKeys(keys - {k});
      KeysAscend(keys - {k});
      var s := [k] + rest;
      forall i, j | 0 <= i < j < |s| ensures Before(s[i], s[j]) {
        if i == 0 {
          assert rest[j - 1] in rest;
          if Rank(k) == Rank(s[j]) { RankInjective(k, s[j]); }
        } else {
          assert Before(rest[i - 1], rest[j - 1]);
        }
      }
    }
  }

  /** Appears notifications for the given keys, in that order. */
  ghost function Announce(store: Store, keys: seq<Key>): seq<AlarmNotification>
    requires forall k <- keys :: k in store.active
  {
    if keys == [] then []
    else
      var d := store.active[keys[0]];
      (match Info(store.submodules, d.slot)
       case Some(info) => [BuildNotification(store.active, info, d, Diagnosis, Appears)]
       case None => [])
      + Announce(store, keys[1..])
  }

  ghost function Replay(store: Store): seq<AlarmNotification> { Announce(store, SortedKeys(store.active.Keys)) }

  ghost function ActiveList(store: Store): seq<ActiveDiagnosis> {
    var keys := SortedKeys(store.active.Keys);
    seq(|keys|, i requires 0 <= i < |keys| => store.active[keys[i]])
  }

  // --- the controller's view ---------------------------------------------------------------

  /** Active diagnoses as the controller knows them, with their maintenance class. */
  type View = map<Key, Maintenance>

  function ViewOf(active: map<Key, ActiveDiagnosis>): View { map k | k in active :: MaintenanceOf(active[k].severity) }

  /** What a controller makes of one notification. */
  function Learn(view: View, n: AlarmNotification): View {
    if !n.data.Channel? then view
    else
      var c := n.data.diagnosis;
      var key := (n.slot, c.channel, c.errorType);
      match c.properties.specifier
      case Appears => view[key := c.properties.maintenance]
      case Disappears => view - {key}
      case DisappearsOthersRemain => view - {key}
      case AllDisappear => map k | k in view && !(k.0 == n.slot && k.1 == c.channel) :: view[k]
  }

  function LearnAll(view: View, ns: seq<AlarmNotification>): View {
    if ns == [] then view else Learn(LearnAll(view, ns[..|ns| - 1]), ns[|ns| - 1])
  }

  /** Entries sit under their own key, on a known slot, with the slot's direction. */
  predicate WellFormed(store: Store) {
    forall k :: k in store.active ==>
      var d := store.active[k];
      KeyOf(d) == k && Knows(store, d.slot) && d.direction == Info(store.submodules, d.slot).value.direction
  }

  /** Every change of the store is announced by a notification that tells the controller exactly it,
      and a call that changes nothing announces nothing. */
  lemma RaiseMirrors(store: Store, d: ActiveDiagnosis)
    requires WellFormed(store)
    ensures var (store', n) := Raise(store, d);
      && WellFormed(store') && store'.submodules == store.submodules
      && ViewOf(store'.active) == (if n.Some? then Learn(ViewOf(store.active), n.value) else ViewOf(store.active))
      && (n.None? ==> store' == store)
  {
    hide AnyOnSlot;
  }

  lemma ClearMirrors(store: Store, slot: u16, channel: u16, error: ErrorCode)
    requires WellFormed(store)
    ensures var (store', n) := ClearOne(store, slot, channel, error);
      && WellFormed(store') && store'.submodules == store.submodules
      && ViewOf(store'.active) == (if n.Some? then Learn(ViewOf(store.active), n.value) else ViewOf(store.active))
      && (n.Some? <==> (slot, channel, error) in store.active)
      && (n.Some? ==> (n.value.data.diagnosis.properties.specifier == DisappearsOthersRemain
                       <==> AnyOnChannel(store'.active, slot, channel)))
  {
    hide AnyOnSlot, AnyOnChannel;
  }

  lemma {:induction false} AnnounceTells(store: Store, keys: seq<Key>, view: View)
    requires WellFormed(store) && forall k <- keys :: k in store.active
    ensures |Announce(store, keys)| == |keys|
    ensures LearnFrom(view, Announce(store, keys))
         == map k | k in view.Keys + (set x | x in keys) ::
              if k in keys then MaintenanceOf(store.active[k].severity) else view[k]
    decreases |keys|
  {
    if keys != [] {
      var k := keys[0];
      var ns := Announce(store, keys);
      assert KeyOf(store.active[k]) == k;
      assert ns[1..] == Announce(store, keys[1..]);
      AnnounceTells(store, keys[1..], Learn(view, ns[0]));
    }
  }

  /** Front-to-back form of `LearnAll`. */
  function LearnFrom(view: View, ns: seq<AlarmNotification>): View
    decreases |ns|
  {
    if ns == [] then view else LearnFrom(Learn(view, ns[0]), ns[1..])
  }

  lemma {:induction false} LearnFromIsLearnAll(view: View, ns: seq<AlarmNotification>)
    ensures LearnFrom(view, ns) == LearnAll(view, ns)
    decreases |ns|
  {
    if |ns| > 0 {
      var n0, rest := ns[0], ns[1..];
      LearnFromIsLearnAll(Learn(view, n0), rest);
      LearnAllFront(view, n0, rest);
      assert [n0] + rest == ns;
    }
  }

  lemma {:induction false} LearnAllFront(view: View, n0: AlarmNotification, rest: seq<AlarmNotification>)
    ensures LearnAll(view, [n0] + rest) == LearnAll(Learn(view, n0), rest)
    decreases |rest|
  {
    if rest == [] {
      assert [n0] + rest == [n0];
      assert [n0][..0] == [];
    } else {
      var init := rest[..|rest| - 1];
      LearnAllFront(view, n0, init);
      assert ([n0] + rest)[..|rest|] == [n0] + init;
    }
  }

  /** Replaying to a controller that knows nothing tells it the whole active set. */
  lemma ReplayTellsAll(store: Store)
    requires WellFormed(store)
    ensures LearnAll(map[], Replay(store)) == ViewOf(store.active)
  {
    var keys := SortedKeys(store.active.Keys);
    AnnounceTells(store, keys, map[]);
    LearnFromIsLearnAll(map[], Replay(store));
  }

  /** The problem indicator says what the controller's view says. */
  lemma ProblemAgrees(store: Store)
    ensures ProblemIndicator(store) <==> exists k :: k in ViewOf(store.active) && ViewOf(store.active)[k] == Fault
  {
    var view := ViewOf(store.active);
    if ProblemIndicator(store) {
      var k :| k in store.active.Keys && store.active[k].severity.SevFault?;
      assert k in view && view[k] == Fault;
    }
    if k :| k in view && view[k] == Fault {
      assert k in store.active.Keys && store.active[k].severity.SevFault?;
    }
  }

  /** The published list holds every active diagnosis, once. */
  lemma PublishedList(store: Store, d: ActiveDiagnosis)
    requires WellFormed(store)
    ensures d in ActiveList(store) <==> KeyOf(d) in store.active && store.active[KeyOf(d)] == d
    ensures forall i, j :: 0 <= i < j < |ActiveList(store)| ==> ActiveList(store)[i] != ActiveList(store)[j]
  {
    hide SortedKeys, Rank;
    KeysAscend(store.active.Keys);
    var keys, list := SortedKeys(store.active.Keys), ActiveList(store);
    forall i | 0 <= i < |list| ensures KeyOf(list[i]) == keys[i] { assert keys[i] in keys; }
    forall i, j | 0 <= i < j < |list| ensures list[i] != list[j] {
      assert Before(keys[i], keys[j]);
    }
    if d in list {
      var i :| 0 <= i < |list| && list[i] == d;
      assert keys[i] in keys;
    }
    if KeyOf(d) in store.active && store.active[KeyOf(d)] == d {
      assert KeyOf(d) in keys;
      var i :| 0 <= i < |keys| && keys[i] == KeyOf(d);
      assert list[i] == d;
    }
  }

  // --- what a notification says ------------------------------------------------------------------

  /** The slot the device model has there, with its submodule at subslot 1. */
  predicate Plugs(s: SlotModel, sm: SubmoduleModel, slot: u16) {
    s.slot == slot && sm in s.submodules && sm.subslot == 1
  }

  predicate Diagnosable(model: DeviceModel, slot: u16) {
    slot > 0 && exists s <- model.slots, sm <- s.submodules :: Plugs(s, sm, slot)
  }

  /** Direction code of a submodule: 1 input, 2 output, 3 both or neither. */
  function DirectionOf(sm: SubmoduleModel): u8 {
    if sm.inputLen > 0 && sm.outputLen == 0 then 1 else if sm.outputLen > 0 && sm.inputLen == 0 then 2 else 3
  }

  predicate FromSlot(info: SubmoduleInfo, s: SlotModel, sm: SubmoduleModel) {
    && info.subslot == 1 && info.moduleIdent == s.moduleIdent && info.submoduleIdent == sm.submoduleIdent
    && DirectionCode(info.direction) == DirectionOf(sm)
  }

  lemma {:induction false} InfoFromModel(slots: seq<SlotModel>, slot: u16)
    ensures var r := Info(Infos(slots), slot);
      && (r.Some? <==> slot > 0 && exists s <- slots, sm <- s.submodules :: Plugs(s, sm, slot))
      && (r.Some? ==> exists s <- slots, sm <- s.submodules :: Plugs(s, sm, slot) && FromSlot(r.value, s, sm))
  {
    hide FindSubmodule;
    if slots != [] {
      var s, rest := slots[0], slots[1..];
      InfoFromModel(rest, slot);
      assert s in slots && forall x <- rest :: x in slots;
      var here := if s.slot > 0 && InfoFor(s).Some? then [InfoFor(s).value] else [];
      assert Infos(slots) == here + Infos(rest);
      InfoFirst(here, Infos(rest), slot);
      var sm := FindSubmodule(s.submodules, 1);
      if here != [] && s.slot == slot { assert Plugs(s, sm.value, slot) && FromSlot(InfoFor(s).value, s, sm.value); }
      assert slots == [s] + rest;
    }
  }

  lemma InfoFirst(here: seq<SubmoduleInfo>, rest: seq<SubmoduleInfo>, slot: u16)
    requires |here| <= 1
    ensures Info(here + rest, slot) == if here != [] && here[0].slot == slot then Some(here[0]) else Info(rest, slot)
  {
    if here == [] { assert here + rest == rest; } else { assert (here + rest)[1..] == rest; }
  }

  /** A channel-diagnosis notification for that entry: of the slot's own module and submodule, and with the flags that
      tell whether anything is active on the slot and on the device. */
  ghost predicate Says(n: AlarmNotification, alarmType: AlarmType, specifier: Specifier, key: Key, severity: Severity,
                       model: DeviceModel, active: map<Key, ActiveDiagnosis>)
  {
    && n.alarmType == alarmType && n.api == 0 && n.slot == key.0 && n.subslot == 1 && n.usi == 0x8000
    && (exists s <- model.slots, sm <- s.submodules ::
          && Plugs(s, sm, key.0) && n.moduleIdent == s.moduleIdent && n.submoduleIdent == sm.submoduleIdent
          && n.data == Channel(ChannelDiagnosis(
               key.1, ChannelProperties(0, false, MaintenanceOf(severity), specifier, DirectionOf(sm)), key.2)))
    && n.specifier == AlarmSpecifier(0, exists k :: k in active && k.0 == key.0, false,
                                     exists k :: k in active && k.0 == key.0, active != map[])
  }

  /** For every device model: raising on a slot it diagnoses announces the entry with a Diagnosis alarm, unless it is
      active with that severity already; on any other slot nothing happens. */
  lemma RaiseSays(model: DeviceModel, store: Store, d: ActiveDiagnosis)
    requires WellFormed(store) && store.submodules == Infos(model.slots)
    ensures var (store', n) := Raise(store, d); var key := (d.slot, d.channel, d.error);
      && (n.Some? <==> Diagnosable(model, d.slot) && !(key in store.active && store.active[key].severity == d.severity))
      && (n.Some? ==> Says(n.value, Diagnosis, Appears, key, d.severity, model, store'.active))
  {
    hide Infos, Info;
    InfoFromModel(model.slots, d.slot);
    var (store', n) := Raise(store, d);
    if n.Some? { SlotSays(Info(store.submodules, d.slot).value, model, d.slot); FlagSays(store'.active, d.slot); }
  }

  lemma SlotSays(info: SubmoduleInfo, model: DeviceModel, slot: u16)
    requires exists s <- model.slots, sm <- s.submodules :: Plugs(s, sm, slot) && FromSlot(info, s, sm)
    ensures info.subslot == 1
    ensures exists s <- model.slots, sm <- s.submodules ::
      && Plugs(s, sm, slot) && info.moduleIdent == s.moduleIdent && info.submoduleIdent == sm.submoduleIdent
      && DirectionCode(info.direction) == DirectionOf(sm)
  {
  }

  lemma FlagSays(active: map<Key, ActiveDiagnosis>, slot: u16)
    ensures AnyOnSlot(active, slot) <==> exists k :: k in active && k.0 == slot
  {
  }

  /** Clearing an active entry announces its disappearance with the severity it had, and says whether others remain on
      its channel; clearing anything else does nothing. */
  lemma ClearSays(model: DeviceModel, store: Store, slot: u16, channel: u16, error: ErrorCode)
    requires WellFormed(store) && store.submodules == Infos(model.slots)
    ensures var (store', n) := ClearOne(store, slot, channel, error); var key := (slot, channel, error);
      && (n.Some? <==> key in store.active)
      && (n.Some? ==>
            var others := exists k :: k in store'.active && k.0 == slot && k.1 == channel;
            Says(n.value, DiagnosisDisappears, if others then DisappearsOthersRemain else Disappears, key,
                 store.active[key].severity, model, store'.active))
  {
    hide Infos, Info;
    InfoFromModel(model.slots, slot);
    var (store', n) := ClearOne(store, slot, channel, error);
    if n.Some? { SlotSays(Info(store.submodules, slot).value, model, slot); FlagSays(store'.active, slot); }
  }

  lemma {:induction false} AnnounceSays(model: DeviceModel, store: Store, keys: seq<Key>, i: nat)
    requires WellFormed(store) && store.submodules == Infos(model.slots) && (forall k <- keys :: k in store.active) && i < |keys|
    ensures |Announce(store, keys)| == |keys|
    ensures keys[i] in keys
         && Says(Announce(store, keys)[i], Diagnosis, Appears, keys[i], store.active[keys[i]].severity, model, store.active)
    decreases |keys|
  {
    hide Infos, Info, Says, BuildNotification;
    var k := keys[0];
    var ns := Announce(store, keys);
    assert KeyOf(store.active[k]) == k;
    assert |ns| == 1 + |Announce(store, keys[1..])| && ns[1..] == Announce(store, keys[1..]);
    if |keys| > 1 { AnnounceSays(model, store, keys[1..], if i == 0 then 0 else i - 1); }
    if i == 0 { BuiltSays(model, store, k); }
  }

  lemma BuiltSays(model: DeviceModel, store: Store, k: Key)
    requires WellFormed(store) && store.submodules == Infos(model.slots) && k in store.active
    ensures var d := store.active[k]; var info := Info(store.submodules, d.slot);
      info.Some? && Says(BuildNotification(store.active, info.value, d, Diagnosis, Appears), Diagnosis, Appears, k,
                         d.severity, model, store.active)
  {
    hide Infos, Info;
    InfoFromModel(model.slots, k.0);
    assert KeyOf(store.active[k]) == k;
    SlotSays(Info(store.submodules, k.0).value, model, k.0);
    FlagSays(store.active, k.0);
  }

  /** Replaying announces every active entry once, in ascending order of slot, channel and error. */
  lemma ReplaySays(model: DeviceModel, store: Store, i: nat)
    requires WellFormed(store) && store.submodules == Infos(model.slots) && i < |SortedKeys(store.active.Keys)|
    ensures var keys := SortedKeys(store.active.Keys);
      && |Replay(store)| == |keys| && Ascending(keys) && keys[i] in store.active && |keys| == |store.active|
      && Says(Replay(store)[i], Diagnosis, Appears, keys[i], store.active[keys[i]].severity, model, store.active)
  {
    hide SortedKeys, Says, Rank;
    var keys := SortedKeys(store.active.Keys);
    KeysAscend(store.active.Keys);
    AnnounceSays(model, store, keys, i);
    SortedCount(store.active.Keys);
  }

  lemma {:induction false} SortedCount(keys: set<Key>)
    ensures |SortedKeys(keys)| == |keys|
    decreases |keys|
  {
    if keys != {} { SortedCount(keys - {MinKey(keys)}); }
  }
}
