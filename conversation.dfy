/** The per-user conversation store of ZimChemBot: for every user id an ordered
    history of chat turns, created lazily with the fixed system instruction and
    trimmed to the system turn plus the most recent turns after every append.

    This module holds the value-level specification of the store; the class
    that updates it in place is ChemBot.ZimChemBot. */
module Conversation {

  datatype Role = System | User | Assistant

  /** One history entry, `{"role": ..., "content": ...}`. */
  datatype Turn = Turn(role: Role, content: string)

  /** Number of recent turns kept behind the system turn. */
  const WINDOW: nat := 20

  /** Longest history the store keeps: the system turn plus WINDOW turns. */
  const MAX_HISTORY: nat := WINDOW + 1

  /** The fixed instruction every history starts with. */
  const SYSTEM_MESSAGE: string :=
    "You are ZimChem AI, an expert chemistry assistant. You help with:\n\n"
    + "- Chemical equations and balancing\n"
    + "- Molecular structures and properties  \n"
    + "- Reaction mechanisms\n"
    + "- Laboratory procedures and safety\n"
    + "- Chemical calculations and stoichiometry\n"
    + "- Organic, inorganic, and physical chemistry\n"
    + "- Chemical nomenclature\n"
    + "- Image analysis of chemical structures, equations, lab setups\n\n"
    + "Keep responses clear, educational, and accurate. Prioritize safety in lab procedures.\n"
    + "If analyzing images, describe what you see clearly before providing chemical insights."

  function SystemTurn(): Turn {
    Turn(System, SYSTEM_MESSAGE)
  }

  /** The whole store: user id to history. */
  type Store = map<string, seq<Turn>>

  /** A history as the store keeps it: it starts with the system turn and is
      never longer than MAX_HISTORY. */
  ghost predicate WellFormed(h: seq<Turn>) {
    1 <= |h| <= MAX_HISTORY && h[0] == SystemTurn()
  }

  /** The store invariant: every history in it is well formed. */
  ghost predicate StoreValid(m: Store) {
    forall u :: u in m ==> WellFormed(m[u])
  }

  /** The history a lookup hands back: the stored one, or a fresh one holding
      only the system turn. */
  function Lookup(m: Store, userId: string): seq<Turn> {
    if userId in m then m[userId] else [SystemTurn()]
  }

  /** The store after a lookup: a missing entry has been created. */
  function Seeded(m: Store, userId: string): Store {
    m[userId := Lookup(m, userId)]
  }

  /** A history after one append and the trim that follows it. */
  function Appended(h: seq<Turn>, t: Turn): seq<Turn> {
    var grown := h + [t];
    if |grown| > MAX_HISTORY then [grown[0]] + grown[|grown| - WINDOW..] else grown
  }

  /** The store after one append to the history of `userId`. */
  function Add(m: Store, userId: string, t: Turn): Store {
    m[userId := Appended(Lookup(m, userId), t)]
  }

  /** The store after a series of appends, applied in order. */
  function Replay(m: Store, adds: seq<(string, Turn)>): Store
    decreases |adds|
  {
    if adds == [] then m else Replay(Add(m, adds[0].0, adds[0].1), adds[1..])
  }

  /** The user ids a series of appends writes to. */
  function Writers(adds: seq<(string, Turn)>): set<string> {
    set i | 0 <= i < |adds| :: adds[i].0
  }

  // ---------------------------------------------------------------------------
  // Lookup

  /** Looking up an unknown id creates exactly the one-turn system history;
      looking up a known id changes nothing, so a second lookup is a no-op. */
  lemma LookupSeeds(m: Store, userId: string)
    ensures userId !in m ==> Seeded(m, userId)[userId] == [SystemTurn()]
    ensures userId in m ==> Seeded(m, userId) == m
    ensures Seeded(Seeded(m, userId), userId) == Seeded(m, userId)
    ensures Lookup(Seeded(m, userId), userId) == Lookup(m, userId)
    ensures Seeded(m, userId).Keys == m.Keys + {userId}
  {
  }

  /** Seeding keeps the store invariant. */
  lemma SeededValid(m: Store, userId: string)
    requires StoreValid(m)
    ensures StoreValid(Seeded(m, userId))
    ensures WellFormed(Lookup(m, userId))
  {
  }

  // ---------------------------------------------------------------------------
  // Append and trim, on any history

  /** Whatever the history, the result of an append ends with the new turn, is
      min(|h| + 1, MAX_HISTORY) long, and keeps the first turn. */
  lemma AppendedBounds(h: seq<Turn>, t: Turn)
    ensures var r := Appended(h, t);
      && |r| == (if |h| + 1 > MAX_HISTORY then MAX_HISTORY else |h| + 1)
      && r[|r| - 1] == t
      && r[0] == (h + [t])[0]
  {
  }

  /** Below the threshold an append trims nothing; at or above it the result
      is the first turn followed by the WINDOW most recent turns. */
  lemma AppendedTrimsOnlyPastThreshold(h: seq<Turn>, t: Turn)
    ensures |h| + 1 <= MAX_HISTORY ==> Appended(h, t) == h + [t]
    ensures |h| + 1 > MAX_HISTORY ==>
      Appended(h, t) == [h[0]] + h[|h| + 1 - WINDOW..] + [t]
  {
    if |h| + 1 > MAX_HISTORY {
      var grown := h + [t];
      assert grown[|grown| - WINDOW..] == h[|h| + 1 - WINDOW..] + [t];
    }
  }

  // ---------------------------------------------------------------------------
  // Append and trim, on a well-formed history

  /** An append keeps a history well formed. Below the cap the new turn is
      simply added; at the cap the result is exactly MAX_HISTORY long and the
      oldest non-system turn is gone. */
  lemma AppendedWellFormed(h: seq<Turn>, t: Turn)
    requires WellFormed(h)
    ensures WellFormed(Appended(h, t))
    ensures |h| < MAX_HISTORY ==> Appended(h, t) == h + [t]
    ensures |h| == MAX_HISTORY ==>
      |Appended(h, t)| == MAX_HISTORY && Appended(h, t) == [h[0]] + h[2..] + [t]
  {
    AppendedTrimsOnlyPastThreshold(h, t);
  }

  /** An append preserves order: the result is the system turn, then an
      unbroken run of the most recent old turns in their old order, then the
      new turn. */
  lemma AppendedKeepsOrder(h: seq<Turn>, t: Turn)
    requires WellFormed(h)
    ensures var r := Appended(h, t);
      && 2 <= |r|
      && r == [h[0]] + h[|h| - (|r| - 2)..] + [t]
  {
    AppendedWellFormed(h, t);
    if |h| == MAX_HISTORY {
      assert h[|h| - (MAX_HISTORY - 2)..] == h[2..];
    } else {
      assert [h[0]] + h[1..] == h;
    }
  }

  /** The k most recent turns of a well-formed history survive an append, in
      order, just before the new turn, for every k below WINDOW. */
  lemma AppendedKeepsRecent(h: seq<Turn>, t: Turn, k: nat)
    requires WellFormed(h)
    requires k < |h| && k < WINDOW
    ensures var r := Appended(h, t);
      && k < |r|
      && r[|r| - 1 - k..] == h[|h| - k..] + [t]
  {
    var r := Appended(h, t);
    AppendedKeepsOrder(h, t);
    var kept := h[|h| - (|r| - 2)..];
    assert r == [h[0]] + kept + [t];
    assert k <= |kept|;
    assert r[|r| - 1 - k..] == kept[|kept| - k..] + [t];
    assert kept[|kept| - k..] == h[|h| - k..];
  }

  /** The same fact, one position at a time: the turn d places before the new
      one is the turn that was d - 1 places before the old end. */
  lemma AppendedFromEnd(h: seq<Turn>, t: Turn, d: nat)
    requires WellFormed(h)
    requires 1 <= d < |h| && d < WINDOW
    ensures var r := Appended(h, t);
      d + 1 < |r| && r[|r| - 1 - d] == h[|h| - d]
  {
    AppendedTrimsOnlyPastThreshold(h, t);
  }

  // ---------------------------------------------------------------------------
  // Appends on the whole store

  /** An append writes the entry of `userId` only: every other key keeps its
      history, and the key set grows by at most that one id. */
  lemma AddTouchesOnlyUser(m: Store, userId: string, t: Turn)
    ensures Add(m, userId, t).Keys == m.Keys + {userId}
    ensures forall u :: u in m && u != userId ==> Add(m, userId, t)[u] == m[u]
    ensures |Add(m, userId, t).Keys| <= |m.Keys| + 1
  {
    var m' := Add(m, userId, t);
    if userId in m {
      assert m'.Keys == m.Keys;
    } else {
      assert m'.Keys == m.Keys + {userId};
      assert |m.Keys + {userId}| == |m.Keys| + 1;
    }
  }

  /** An append keeps the store invariant, and the written history ends with
      the new turn. */
  lemma AddValid(m: Store, userId: string, t: Turn)
    requires StoreValid(m)
    ensures StoreValid(Add(m, userId, t))
    ensures var h := Add(m, userId, t)[userId]; h[|h| - 1] == t
  {
    SeededValid(m, userId);
    AppendedWellFormed(Lookup(m, userId), t);
    AppendedBounds(Lookup(m, userId), t);
  }

  /** After any series of appends, every history in the store still starts
      with the system turn and is at most MAX_HISTORY long; the store holds
      exactly the old ids plus the ids that were written to. */
  lemma {:induction false} ReplayValid(m: Store, adds: seq<(string, Turn)>)
    requires StoreValid(m)
    ensures StoreValid(Replay(m, adds))
    ensures Replay(m, adds).Keys == m.Keys + Writers(adds)
    decreases |adds|
  {
    if adds != [] {
      var next := Add(m, adds[0].0, adds[0].1);
      AddValid(m, adds[0].0, adds[0].1);
      AddTouchesOnlyUser(m, adds[0].0, adds[0].1);
      ReplayValid(next, adds[1..]);
      WritersUnfold(adds);
    }
  }

  /** The writers of a non-empty series are its first writer and the writers
      of the rest. */
  lemma WritersUnfold(adds: seq<(string, Turn)>)
    requires adds != []
    ensures Writers(adds) == {adds[0].0} + Writers(adds[1..])
  {
    forall u | u in Writers(adds) ensures u in {adds[0].0} + Writers(adds[1..]) {
      var i :| 0 <= i < |adds| && adds[i].0 == u;
      if i > 0 {
        assert adds[1..][i - 1].0 == u;
      }
    }
    forall u | u in Writers(adds[1..]) ensures u in Writers(adds) {
      var i :| 0 <= i < |adds[1..]| && adds[1..][i].0 == u;
      assert adds[i + 1].0 == u;
    }
  }

  /** The store the bot starts with is valid, so every store reachable by
      appends is. */
  lemma ReachableStoresValid(adds: seq<(string, Turn)>)
    ensures StoreValid(Replay(map[], adds))
    ensures Replay(map[], adds).Keys == Writers(adds)
  {
    ReplayValid(map[], adds);
  }
}
