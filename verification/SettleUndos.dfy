/**
 * The snapshots Settle keeps for its Undo, by token, in the order they were
 * set. Pressing Undo takes a snapshot out, and keeping a new one drops those
 * that have run out and the oldest beyond the limit. The list stands for a
 * map that remembers the order of its keys, and holds each token once, which
 * is what every step on it is shown to keep.
 */
module SettleUndos {
  import opened Common
  import opened Lifecycle
  import opened Actions

  const MAX_SETTLE_UNDOS := 50
  const SETTLE_TOAST_MS := 4_000
  const SETTLE_TOAST_WITH_NOTE_MS := 10_000
  const UNDO_SLACK_MS := 3_000

  datatype SettleSnapshot = SettleSnapshot(threadId: string, expiresAt: int, entries: seq<SettleEntry>)

  datatype Held = Held(token: string, snapshot: SettleSnapshot)

  function Find(undos: seq<Held>, token: string): Option<SettleSnapshot> {
    if undos == [] then None
    else if undos[0].token == token then Some(undos[0].snapshot)
    else Find(undos[1..], token)
  }

  function Without(undos: seq<Held>, token: string): seq<Held> {
    if undos == [] then []
    else if undos[0].token == token then Without(undos[1..], token)
    else [undos[0]] + Without(undos[1..], token)
  }

  /** Sets a token's snapshot: in its place when the token is there, else last. */
  function SetHeld(undos: seq<Held>, token: string, snapshot: SettleSnapshot): seq<Held> {
    if undos == [] then [Held(token, snapshot)]
    else if undos[0].token == token then [Held(token, snapshot)] + undos[1..]
    else [undos[0]] + SetHeld(undos[1..], token, snapshot)
  }

  function Unexpired(undos: seq<Held>, at: int): seq<Held> {
    if undos == [] then []
    else if undos[0].snapshot.expiresAt <= at then Unexpired(undos[1..], at)
    else [undos[0]] + Unexpired(undos[1..], at)
  }

  /** The last `n` set, or all when there are no more. */
  function Newest(undos: seq<Held>, n: nat): seq<Held> { if |undos| <= n then undos else undos[|undos| - n..] }

  lemma {:induction false} SetHeldFinds(undos: seq<Held>, token: string, snapshot: SettleSnapshot, other: string)
    ensures Find(SetHeld(undos, token, snapshot), other) == if other == token then Some(snapshot) else Find(undos, other)
    ensures |SetHeld(undos, token, snapshot)| <= |undos| + 1
  {
    if undos != [] && undos[0].token != token {
      SetHeldFinds(undos[1..], token, snapshot, other);
    }
  }

  lemma {:induction false} WithoutFinds(undos: seq<Held>, token: string, other: string)
    ensures Find(Without(undos, token), other) == if other == token then None else Find(undos, other)
    ensures |Without(undos, token)| <= |undos|
  {
    if undos != [] {
      WithoutFinds(undos[1..], token, other);
    }
  }

  lemma {:induction false} UnexpiredAre(undos: seq<Held>, at: int)
    ensures forall h :: h in Unexpired(undos, at) <==> h in undos && h.snapshot.expiresAt > at
  {
    if undos != [] {
      UnexpiredAre(undos[1..], at);
    }
  }

  lemma {:induction false} SetHeldIs(undos: seq<Held>, token: string, snapshot: SettleSnapshot)
    requires TokensOnce(undos)
    ensures forall h :: h in SetHeld(undos, token, snapshot) <==> h == Held(token, snapshot) || (h in undos && h.token != token)
  {
    if undos != [] {
      assert forall h :: h in undos[1..] ==> h.token != undos[0].token;
      if undos[0].token != token {
        SetHeldIs(undos[1..], token, snapshot);
      }
    }
  }

  ghost predicate TokensOnce(undos: seq<Held>) {
    forall i, j :: 0 <= i < j < |undos| ==> undos[i].token != undos[j].token
  }

  lemma {:induction false} FindIn(undos: seq<Held>, token: string)
    ensures Find(undos, token).Some? ==> Held(token, Find(undos, token).value) in undos
    ensures Find(undos, token).None? ==> forall h :: h in undos ==> h.token != token
  {
    if undos != [] && undos[0].token != token {
      FindIn(undos[1..], token);
    }
  }

  lemma {:induction false} UnexpiredOnce(undos: seq<Held>, at: int)
    requires TokensOnce(undos)
    ensures TokensOnce(Unexpired(undos, at))
  {
    if undos != [] {
      UnexpiredOnce(undos[1..], at);
      UnexpiredAre(undos[1..], at);
      var kept := Unexpired(undos[1..], at);
      assert forall i :: 0 <= i < |kept| ==> kept[i] in kept;
    }
  }

  lemma {:induction false} SetHeldOnce(undos: seq<Held>, token: string, snapshot: SettleSnapshot)
    requires TokensOnce(undos)
    ensures TokensOnce(SetHeld(undos, token, snapshot))
    ensures forall h :: h in SetHeld(undos, token, snapshot) ==> h.token == token || h in undos
  {
    if undos != [] && undos[0].token != token {
      SetHeldOnce(undos[1..], token, snapshot);
      assert forall h :: h in undos[1..] ==> h.token != undos[0].token;
    }
  }

  lemma {:induction false} WithoutOnce(undos: seq<Held>, token: string)
    requires TokensOnce(undos)
    ensures TokensOnce(Without(undos, token))
  {
    if undos != [] {
      WithoutOnce(undos[1..], token);
      WithoutAre(undos[1..], token);
      var kept := Without(undos[1..], token);
      assert forall i :: 0 <= i < |kept| ==> kept[i] in kept;
    }
  }

  lemma {:induction false} WithoutAre(undos: seq<Held>, token: string)
    ensures forall h :: h in Without(undos, token) <==> h in undos && h.token != token
  {
    if undos != [] {
      WithoutAre(undos[1..], token);
    }
  }

  function UndoUntil(at: int, noted: bool): int {
    at + (if noted then SETTLE_TOAST_WITH_NOTE_MS else SETTLE_TOAST_MS) + UNDO_SLACK_MS
  }

  /** The token holds an undo of this thread's settle that has not run out. */
  predicate Pressable(undos: seq<Held>, token: string, threadId: string, now: int) {
    var held := Find(undos, token);
    held.Some? && held.value.threadId == threadId && held.value.expiresAt > now
  }
}
