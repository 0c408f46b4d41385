/** Messages between the master and its room workers. */
module Hub {

  /** Sizes: room slots, players per room, players dealt into a room, recorded players. */
  datatype Config = Config(rooms: nat, lobby: nat, roomSize: nat, maxPlayers: nat)

  datatype HubAttack = HubAttack(attacker: nat, victim: nat, lines: nat)

  datatype PlayerView = PlayerView(id: nat, alive: bool)

  /** The master's view of every player in the match, alive or dead, in joining order. */
  type HubRoster = seq<PlayerView>

  datatype HubMsg =
    | Ready                       // worker to master
    | Joined(id: nat)             // worker to master
    | Eliminated(id: nat)         // worker to master
    | Attack(attack: HubAttack)   // worker to master
    | Feed(attack: HubAttack)     // both ways; display only
    | Start(expected: nat)        // master to worker
    | Garbage(attack: HubAttack)  // master to worker
    | Roster(roster: HubRoster)   // master to worker
    | GameOver(winner: nat)       // master to worker

  /** `a` is an earlier view than `b`: fewer players perhaps, and nobody dead who is alive in `b`. */
  ghost predicate Older(a: HubRoster, b: HubRoster) {
    |a| <= |b| && forall j :: 0 <= j < |a| ==> a[j].id == b[j].id && (b[j].alive ==> a[j].alive)
  }

  lemma OlderTransitive(a: HubRoster, b: HubRoster, c: HubRoster)
    requires Older(a, b) && Older(b, c)
    ensures Older(a, c)
  {
  }

  /** The rosters of a channel, after the view `first` and before the view `last`, come in the order they were made. */
  ghost predicate Chain(first: HubRoster, msgs: seq<HubMsg>, last: HubRoster)
    decreases msgs
  {
    if msgs == [] then Older(first, last)
    else if msgs[0].Roster? then Older(first, msgs[0].roster) && Chain(msgs[0].roster, msgs[1..], last)
    else Chain(first, msgs[1..], last)
  }

  lemma {:induction false} ChainLater(first: HubRoster, msgs: seq<HubMsg>, last: HubRoster, later: HubRoster)
    requires Chain(first, msgs, last) && Older(last, later)
    ensures Chain(first, msgs, later)
    decreases msgs
  {
    hide Older;
    if msgs == [] {
      OlderTransitive(first, last, later);
    } else if msgs[0].Roster? {
      ChainLater(msgs[0].roster, msgs[1..], last, later);
    } else {
      ChainLater(first, msgs[1..], last, later);
    }
  }

  lemma {:induction false} ChainAppend(first: HubRoster, msgs: seq<HubMsg>, last: HubRoster, msg: HubMsg)
    requires Chain(first, msgs, last) && (msg.Roster? ==> msg.roster == last)
    ensures Chain(first, msgs + [msg], last)
    decreases msgs
  {
    hide Older;
    if msgs == [] {
      assert [msg][1..] == [];
      OlderSelf(last);
      assert msgs + [msg] == [msg];
    } else {
      assert (msgs + [msg])[1..] == msgs[1..] + [msg];
      ChainAppend(if msgs[0].Roster? then msgs[0].roster else first, msgs[1..], last, msg);
    }
  }

  lemma OlderSelf(a: HubRoster)
    ensures Older(a, a)
  {
  }

  /** The oldest view of a chain is older than the newest. */
  lemma {:induction false} ChainEnds(first: HubRoster, msgs: seq<HubMsg>, last: HubRoster)
    requires Chain(first, msgs, last)
    ensures Older(first, last)
    decreases msgs
  {
    hide Older;
    if msgs != [] {
      if msgs[0].Roster? {
        ChainEnds(msgs[0].roster, msgs[1..], last);
        OlderTransitive(first, msgs[0].roster, last);
      } else {
        ChainEnds(first, msgs[1..], last);
      }
    }
  }
}
