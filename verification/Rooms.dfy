/** A room worker as a value: its lobby, its players, what it does with hub messages, and how it routes attacks. */
module Rooms {
  import opened Hub
  import Meters = Garbage
  import Targeting

  const MAX_PENDING := 20
  const MAX_OUTGOING := 12

  /** One player as the room sees it: the parts of the board state that matter outside the board. */
  datatype Slot = Slot(
    id: nat,
    active: bool,
    over: bool,
    elimReported: bool, // the master has been told
    eliminated: bool,   // the room's own targeting roster shows the player as out
    outgoing: nat,
    pending: nat,
    targetMode: nat,
    targetId: nat,
    lastAttacker: nat)

  /** Where the tick loop stands: taking input, reporting deaths from `next` on, or routing garbage from `next` on. */
  datatype Phase = Input | Reporting(next: nat) | Routing(next: nat)

  datatype Proc =
    | Gone
    | Lobby(bound: bool, ids: seq<nat>, ordered: bool, seen: HubRoster)
    | Playing(slots: seq<Slot>, global: HubRoster, phase: Phase, matchOver: bool, winner: nat)

  function SlotIds(slots: seq<Slot>): (ids: seq<nat>)
    ensures |ids| == |slots| && forall k :: 0 <= k < |slots| ==> ids[k] == slots[k].id
  {
    seq(|slots|, k requires 0 <= k < |slots| => slots[k].id)
  }

  /** The first id from i on that is not the player's own, or 0. */
  function FirstOther(ids: seq<nat>, self: nat, i: nat): nat
    requires i <= |ids|
    decreases |ids| - i
  {
    if i == |ids| then 0 else if ids[i] != self then ids[i] else FirstOther(ids, self, i + 1)
  }

  /** Nobody else, then nobody; otherwise the first who is not the player. */
  lemma {:induction false} FirstOtherIs(ids: seq<nat>, self: nat, i: nat)
    requires i <= |ids|
    ensures var id := FirstOther(ids, self, i);
            && ((forall j :: i <= j < |ids| ==> ids[j] == self) ==> id == 0)
            && forall j :: i <= j < |ids| && ids[j] != self && (forall q :: i <= q < j ==> ids[q] == self) ==>
               id == ids[j]
    decreases |ids| - i
  {
    if i < |ids| {
      FirstOtherIs(ids, self, i + 1);
    }
  }

  predicate FreshSlot(s: Slot) {
    s.active && !s.over && !s.elimReported && s.outgoing == 0 && s.pending == 0
  }

  /** Fresh boards for everyone who joined, each aimed at the first other player. */
  function OpeningSlots(ids: seq<nat>): (slots: seq<Slot>)
    ensures |slots| == |ids| && SlotIds(slots) == ids
    ensures forall k :: 0 <= k < |ids| ==> slots[k].id == ids[k] && FreshSlot(slots[k])
  {
    seq(|ids|, k requires 0 <= k < |ids| =>
      Slot(ids[k], true, false, false, false, 0, 0, Targeting.TARGET_MANUAL, FirstOther(ids, ids[k], 0), 0))
  }

  /** Index of the first active player from i on with this id, or -1. */
  function FindFrom(slots: seq<Slot>, id: nat, i: nat): (k: int)
    requires i <= |slots|
    ensures k == -1 || (i <= k < |slots| && slots[k].active && slots[k].id == id)
    ensures forall j :: i <= j < (if k == -1 then |slots| else k) ==> !(slots[j].active && slots[j].id == id)
    decreases |slots| - i
  {
    if i == |slots| then -1 else if slots[i].active && slots[i].id == id then i else FindFrom(slots, id, i + 1)
  }

  function FindPlayer(slots: seq<Slot>, id: nat): (k: int)
    ensures k == -1 || (0 <= k < |slots| && slots[k].active && slots[k].id == id)
    ensures k == -1 ==> forall j :: 0 <= j < |slots| ==> !(slots[j].active && slots[j].id == id)
  {
    FindFrom(slots, id, 0)
  }

  // ----- Boards

  /** What any step of a live board can look like from outside: it may end, aim elsewhere, send up to twelve lines
      and use up its meter, but it keeps its place in the room. A board that is over does not move. */
  ghost predicate BoardStep(s: Slot, t: Slot) {
    && t.id == s.id && t.active == s.active && t.elimReported == s.elimReported
    && t.eliminated == s.eliminated && t.lastAttacker == s.lastAttacker
    && t.outgoing <= MAX_OUTGOING && t.pending <= s.pending
    && (s.over ==> t == s)
  }

  function QuitSlot(s: Slot): Slot {
    if !s.active || s.over then s else s.(over := true, active := false, eliminated := true)
  }

  /** One tick of the simulation: live boards step, and a board that just ended leaves the targeting roster. */
  ghost predicate TickedSlot(s: Slot, t: Slot) {
    if !s.active || s.over then t == s
    else BoardStep(s, t.(eliminated := s.eliminated)) && t.eliminated == (s.eliminated || t.over)
  }

  ghost predicate Ticked(slots: seq<Slot>, slots': seq<Slot>) {
    |slots'| == |slots| && forall k :: 0 <= k < |slots| ==> TickedSlot(slots[k], slots'[k])
  }

  // ----- Choosing a victim

  function LocalRoster(slots: seq<Slot>): Targeting.Roster {
    seq(|slots|, k requires 0 <= k < |slots| => Targeting.Entry(slots[k].id, slots[k].eliminated))
  }

  /** Everyone alive in the match but the attacker, in the master's order. */
  function GlobalCandidates(global: HubRoster, self: nat): (ids: seq<nat>)
    ensures forall id :: id in ids ==> id != self && exists i :: 0 <= i < |global| && global[i] == PlayerView(id, true)
    ensures forall i :: 0 <= i < |global| && global[i].id != self && global[i].alive ==> global[i].id in ids
  {
    if global == [] then []
    else
      var n := |global| - 1;
      var ids := GlobalCandidates(global[..n], self);
      assert forall i :: 0 <= i < n ==> global[..n][i] == global[i];
      if global[n].id != self && global[n].alive then ids + [global[n].id] else ids
  }

  predicate AliveIn(global: HubRoster, id: nat) {
    exists i :: 0 <= i < |global| && global[i].id == id && global[i].alive
  }

  /** Random targets and retaliation reach across rooms by the global view; everything else stays in the room. */
  function ResolveVictim(slots: seq<Slot>, k: nat, global: HubRoster, roll: nat): nat
    requires k < |slots|
  {
    var s := slots[k];
    var ids := GlobalCandidates(global, s.id);
    if s.targetMode == Targeting.TARGET_RANDOM && ids != [] then ids[roll % |ids|]
    else if s.targetMode == Targeting.TARGET_KO && s.lastAttacker != 0 && s.lastAttacker != s.id &&
      AliveIn(global, s.lastAttacker)
    then s.lastAttacker
    else Targeting.ResolveTarget(LocalRoster(slots), s.targetMode, s.id, s.targetId, s.lastAttacker, roll)
  }

  // ----- Garbage

  /** An attack reaches a board: the meter grows and the attacker is remembered. */
  function Hit(s: Slot, attack: HubAttack): Slot {
    s.(pending := Meters.Queued(s.pending, attack.lines), lastAttacker := attack.attacker)
  }

  /** Where forwarded garbage lands, or -1: an unknown or dead victim takes nothing. */
  function Landing(slots: seq<Slot>, attack: HubAttack): (v: int)
    ensures v == -1 || (0 <= v < |slots| && slots[v].active && !slots[v].over && slots[v].id == attack.victim)
  {
    var v := FindPlayer(slots, attack.victim);
    if v == -1 || slots[v].over then -1 else v
  }

  function ApplyGarbage(slots: seq<Slot>, attack: HubAttack): (r: seq<Slot>)
    ensures |r| == |slots|
  {
    var v := Landing(slots, attack);
    if v == -1 then slots else slots[v := Hit(slots[v], attack)]
  }

  /** What becomes of the garbage player k has made. */
  datatype Fate = Idle | Local(v: nat, attack: HubAttack) | Remote(attack: HubAttack) | Lost(attack: HubAttack)

  function FateOf(slots: seq<Slot>, k: nat, global: HubRoster, roll: nat): (f: Fate)
    requires k < |slots|
    ensures f.Local? ==>
      f.v < |slots| && f.v != k && slots[f.v].active && !slots[f.v].over && slots[f.v].id == f.attack.victim
    ensures !f.Idle? ==>
      f.attack.attacker == slots[k].id && f.attack.lines == slots[k].outgoing && slots[k].outgoing > 0
    ensures f.Remote? ==> f.attack.victim != slots[k].id && FindPlayer(slots, f.attack.victim) == -1
  {
    var s := slots[k];
    if s.outgoing == 0 then Idle
    else
      var victim := ResolveVictim(slots, k, global, roll);
      var v := FindPlayer(slots, victim);
      var attack := HubAttack(s.id, victim, s.outgoing);
      if v != -1 && v != k && !slots[v].over then Local(v, attack)
      else if v == -1 && victim != 0 && victim != s.id then Remote(attack)
      else Lost(attack)
  }

  /** The players after player k's garbage has been dealt with. */
  function RoutedSlots(slots: seq<Slot>, k: nat, f: Fate): (r: seq<Slot>)
    requires k < |slots| && (f.Local? ==> f.v < |slots|)
    ensures |r| == |slots|
  {
    var spent := slots[k := slots[k].(outgoing := 0)];
    if f.Local? then spent[f.v := Hit(spent[f.v], f.attack)] else spent
  }

  /** What routing puts on the hub, in order. */
  function RoutedMsgs(f: Fate): seq<HubMsg> {
    match f
    case Local(_, attack) => [Feed(attack)]
    case Remote(attack) => [Attack(attack), Feed(attack)]
    case _ => []
  }

  // ----- Deaths

  predicate MustReport(s: Slot) {
    (s.over || !s.active) && !s.elimReported
  }

  function ReportedSlots(slots: seq<Slot>, k: nat): (r: seq<Slot>)
    requires k < |slots|
    ensures |r| == |slots|
  {
    if MustReport(slots[k]) then slots[k := slots[k].(elimReported := true)] else slots
  }

  function ReportMsgs(slots: seq<Slot>, k: nat): seq<HubMsg>
    requires k < |slots|
  {
    if MustReport(slots[k]) then [Eliminated(slots[k].id)] else []
  }
}
