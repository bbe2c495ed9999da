// grok-mobile-belmont-pwa/src/windows-keyboard.ts: a key chord is sent as one transaction.

module KeyChord {

  datatype Modifier = Modifier(key: nat, mask: bv8)

  const MODIFIERS: seq<Modifier> := [Modifier(0xA2, 2), Modifier(0xA4, 4), Modifier(0xA0, 1), Modifier(0x5B, 8)]

  datatype Sent = Sent(down: bool, key: nat, modifiers: bv8)

  /** What is pressed, in order: the wanted modifiers other than the key itself, then the key. */
  function Held(key: nat, modifiers: bv8, n: nat): seq<Modifier>
    requires n <= |MODIFIERS|
  {
    if n == 0 then []
    else
      var m := MODIFIERS[n - 1];
      Held(key, modifiers, n - 1) + if modifiers & m.mask == 0 || m.key == key then [] else [m]
  }

  function Chord(key: nat, modifiers: bv8): seq<Modifier> {
    Held(key, modifiers, |MODIFIERS|) + [Modifier(key, 0)]
  }

  /** The modifier state after these presses. */
  function Active(held: seq<Modifier>): bv8 {
    if held == [] then 0 else Active(held[..|held| - 1]) | held[|held| - 1].mask
  }

  function Presses(held: seq<Modifier>): seq<Sent> {
    seq(|held|, k requires 0 <= k < |held| => Sent(true, held[k].key, Active(held[..k + 1])))
  }

  /** Releases in reverse order, each back to the modifier state before its press. */
  function Releases(held: seq<Modifier>): seq<Sent> {
    seq(|held|, k requires 0 <= k < |held| =>
      Sent(false, held[|held| - 1 - k].key, Active(held[..|held| - 1 - k])))
  }

  /** No two masks share a bit, so a release clears just what its press set. */
  ghost predicate Disjoint(held: seq<Modifier>) {
    forall k | 0 <= k < |held| :: Active(held[..k]) & held[k].mask == 0
  }

  lemma ActivePush(held: seq<Modifier>, m: Modifier)
    ensures Active(held + [m]) == Active(held) | m.mask
  {
    assert (held + [m])[..|held|] == held;
  }

  lemma PressThenRelease(held: seq<Modifier>, m: Modifier)
    requires Active(held) & m.mask == 0
    ensures Active(held + [m]) == Active(held) | m.mask
    ensures Active(held + [m]) & !m.mask == Active(held)
  {
    hide Active;
    ActivePush(held, m);
    Bits(Active(held), m.mask);
  }

  lemma Bits(a: bv8, m: bv8)
    requires a & m == 0
    ensures (a | m) & !m == a
  {
  }

  lemma DisjointPush(held: seq<Modifier>, m: Modifier)
    requires Disjoint(held) && Active(held) & m.mask == 0
    ensures Disjoint(held + [m])
  {
    forall k | 0 <= k <= |held| ensures Active((held + [m])[..k]) & (held + [m])[k].mask == 0 {
      assert (held + [m])[..k] == held[..k];
      assert held[..|held|] == held;
    }
  }

  lemma PressesPush(held: seq<Modifier>, m: Modifier)
    ensures Presses(held + [m]) == Presses(held) + [Sent(true, m.key, Active(held + [m]))]
  {
    var more := held + [m];
    forall k | 0 <= k < |held| ensures Presses(more)[k] == Presses(held)[k] {
      assert more[..k + 1] == held[..k + 1];
    }
    assert more[..|held| + 1] == more;
  }

  lemma ReleasesPush(held: seq<Modifier>, n: nat)
    requires n < |held|
    ensures Releases(held)[..|held| - n] == Releases(held)[..|held| - n - 1] + [Sent(false, held[n].key, Active(held[..n]))]
  {
  }

  /** The remote side: it logs every call, and the adversary decides which calls throw. */
  class Target {
    const fails: nat -> bool
    var log: seq<Sent>

    constructor (fails: nat -> bool)
      ensures log == [] && this.fails == fails
    {
      this.fails := fails;
      log := [];
    }

    method SendKey(down: bool, key: nat, modifiers: bv8) returns (ok: bool)
      modifies this
      ensures log == old(log) + [Sent(down, key, modifiers)]
      ensures ok <==> !fails(|old(log)|)
    {
      ok := !fails(|log|);
      log := log + [Sent(down, key, modifiers)];
    }
  }

  /** Some call in this range threw. */
  predicate AnyFailed(fails: nat -> bool, from: nat, to: nat) {
    exists k | from <= k < to :: fails(k)
  }

  lemma OneMoreCall(fails: nat -> bool, from: nat, to: nat)
    requires from <= to
    ensures AnyFailed(fails, from, to + 1) <==> AnyFailed(fails, from, to) || fails(to)
    ensures !AnyFailed(fails, from, from)
  {
  }

  /** The chord was pressed in order up to `held`; only the last of these calls can have thrown. */
  ghost predicate Pressed(fails: nat -> bool, before: seq<Sent>, log: seq<Sent>, held: seq<Modifier>, failed: bool) {
    && log == before + Presses(held) && |Presses(held)| == |held|
    && (failed ==> held != [] && fails(|before| + |held| - 1) && !AnyFailed(fails, |before|, |before| + |held| - 1))
    && (!failed ==> !AnyFailed(fails, |before|, |before| + |held|))
  }

  method PressKey(target: Target, held: seq<Modifier>, m: Modifier, active: bv8, ghost before: seq<Sent>)
    returns (failed: bool)
    requires Pressed(target.fails, before, target.log, held, false)
    requires active == Active(held + [m])
    modifies target
    ensures Pressed(target.fails, before, target.log, held + [m], failed)
  {
    hide Presses, Active;
    PressesPush(held, m);
    OneMoreCall(target.fails, |before|, |before| + |held|);
    var sent := target.SendKey(true, m.key, active);
    failed := !sent;
  }

  /** The `try` block. */
  method PressChord(target: Target, key: nat, modifiers: bv8) returns (held: seq<Modifier>, active: bv8, failed: bool)
    modifies target
    ensures Pressed(target.fails, old(target.log), target.log, held, failed)
    ensures active == Active(held) && Disjoint(held)
    ensures 1 <= |held| <= |Chord(key, modifiers)| && held == Chord(key, modifiers)[..|held|]
    ensures held != Chord(key, modifiers) ==> failed
  {
    hide Pressed, Active, Disjoint, Within, Held;
    var i: nat := 0;
    held, active, failed := [], 0, false;
    NothingHeld(target.fails, target.log);
    HeldNext(key, modifiers, 0);
    while i < |MODIFIERS| && !failed
      invariant i <= |MODIFIERS| && held == Held(key, modifiers, i) && (failed ==> held != [])
      invariant active == Active(held) && Disjoint(held) && Within(active, i)
      invariant Pressed(target.fails, old(target.log), target.log, held, failed)
      decreases |MODIFIERS| - i
    {
      var m := MODIFIERS[i];
      if modifiers & m.mask != 0 && m.key != key {
        MasksAreApart(active, i);
        PressThenRelease(held, m);
        DisjointPush(held, m);
        active := active | m.mask;
        failed := PressKey(target, held, m, active, old(target.log));
        held := held + [m];
      } else {
        WithinMore(active, i);
      }
      HeldNext(key, modifiers, i);
      i := i + 1;
    }
    HeldStarts(key, modifiers, i);
    if !failed {
      var m := Modifier(key, 0);
      PressThenRelease(held, m);
      DisjointPush(held, m);
      failed := PressKey(target, held, m, active, old(target.log));
      held := held + [m];
    }
  }

  /** The `finally` block: every press is taken back, last one first, even when releases throw. */
  method ReleaseChord(target: Target, held: seq<Modifier>, active0: bv8, ghost from: nat, failed0: bool)
    returns (failed: bool)
    requires active0 == Active(held) && Disjoint(held)
    requires from <= |target.log| && (failed0 <==> AnyFailed(target.fails, from, |target.log|))
    modifies target
    ensures target.log == old(target.log) + Releases(held)
    ensures failed <==> AnyFailed(target.fails, from, |target.log|)
  {
    hide Releases, Active, Disjoint, AnyFailed;
    failed := failed0;
    var active, n: nat := active0, |held|;
    NothingReleased(target.log, held);
    while n > 0
      invariant n <= |held| == |Releases(held)|
      invariant active == Active(held[..n])
      invariant target.log == old(target.log) + Releases(held)[..|held| - n]
      invariant failed <==> AnyFailed(target.fails, from, |target.log|)
    {
      n := n - 1;
      ReleaseRestores(held, n);
      ReleasesPush(held, n);
      OneMoreCall(target.fails, from, |target.log|);
      active := active & !held[n].mask;
      var sent := target.SendKey(false, held[n].key, active);
      if !sent { failed := true; }
    }
    assert Releases(held)[..|held|] == Releases(held);
  }

  /** However calls fail, what was sent is a run of presses along the chord, up to the first press that
      threw, and then the release of every one of them in reverse order, each restoring the modifier
      state from before its press. */
  method SendDesktopKey(target: Target, key: nat, modifiers: bv8) returns (ok: bool, ghost held: seq<Modifier>)
    modifies target
    ensures target.log == old(target.log) + Presses(held) + Releases(held)
    ensures 1 <= |held| <= |Chord(key, modifiers)| && held == Chord(key, modifiers)[..|held|]
    ensures !AnyFailed(target.fails, |old(target.log)|, |old(target.log)| + |held| - 1)
    ensures held == Chord(key, modifiers) || target.fails(|old(target.log)| + |held| - 1)
    ensures ok <==> !AnyFailed(target.fails, |old(target.log)|, |target.log|)
  {
    hide Presses, Releases, Active, Disjoint;
    var list, active, failed := PressChord(target, key, modifiers);
    OneMoreCall(target.fails, |old(target.log)|, |old(target.log)| + |list| - 1);
    held := list;
    failed := ReleaseChord(target, list, active, |old(target.log)|, failed);
    ok := !failed;
  }

  /** Bits of the first i modifiers only. */
  predicate Within(active: bv8, i: nat) {
    if i == 0 then active == 0
    else if i == 1 then active & !2 == 0
    else if i == 2 then active & !6 == 0
    else if i == 3 then active & !7 == 0
    else active & !15 == 0
  }

  lemma MasksAreApart(active: bv8, i: nat)
    requires i < |MODIFIERS| && Within(active, i)
    ensures active & MODIFIERS[i].mask == 0 && Within(active | MODIFIERS[i].mask, i + 1)
  {
  }

  lemma WithinMore(active: bv8, i: nat)
    requires i < |MODIFIERS| && Within(active, i)
    ensures Within(active, i + 1)
  {
  }

  lemma NothingHeld(fails: nat -> bool, before: seq<Sent>)
    ensures Pressed(fails, before, before, [], false) && Active([]) == 0 && Disjoint([]) && Within(0, 0)
  {
  }

  lemma NothingReleased(log: seq<Sent>, held: seq<Modifier>)
    ensures |Releases(held)| == |held| && log == log + Releases(held)[..0] && held[..|held|] == held
  {
  }

  lemma ReleaseRestores(held: seq<Modifier>, n: nat)
    requires Disjoint(held) && n < |held|
    ensures Active(held[..n + 1]) & !held[n].mask == Active(held[..n])
  {
    assert held[..n + 1] == held[..n] + [held[n]];
    PressThenRelease(held[..n], held[n]);
  }

  lemma {:induction false} HeldStarts(key: nat, modifiers: bv8, i: nat)
    requires i <= |MODIFIERS|
    ensures var held, chord := Held(key, modifiers, i), Chord(key, modifiers);
            |held| < |chord| && chord[..|held|] == held
    decreases |MODIFIERS| - i
  {
    if i < |MODIFIERS| {
      HeldStarts(key, modifiers, i + 1);
      var more := Held(key, modifiers, i + 1);
      assert more[..|Held(key, modifiers, i)|] == Held(key, modifiers, i);
      assert Chord(key, modifiers)[..|more|] == more;
    }
  }

  lemma HeldNext(key: nat, modifiers: bv8, i: nat)
    requires i < |MODIFIERS|
    ensures Held(key, modifiers, 0) == []
    ensures Held(key, modifiers, i + 1) == Held(key, modifiers, i) +
              if modifiers & MODIFIERS[i].mask == 0 || MODIFIERS[i].key == key then [] else [MODIFIERS[i]]
  {
  }

  /** The release of press k names the same key and the modifier state there was just before it. */
  lemma ReleasesMirrorPresses(held: seq<Modifier>, k: nat)
    requires k < |held|
    ensures Releases(held)[|held| - 1 - k]
         == Sent(false, Presses(held)[k].key, if k == 0 then 0 else Presses(held)[k - 1].modifiers)
  {
    assert held[..0] == [];
  }

  lemma {:induction false} HeldKeys(key: nat, modifiers: bv8, n: nat)
    requires n <= |MODIFIERS|
    ensures forall m :: m in Held(key, modifiers, n) ==> m in MODIFIERS[..n] && m.key != key
    ensures forall j, k :: 0 <= j < k < |Held(key, modifiers, n)| ==>
              Held(key, modifiers, n)[j].key != Held(key, modifiers, n)[k].key
  {
    if n != 0 {
      HeldKeys(key, modifiers, n - 1);
      var held := Held(key, modifiers, n - 1);
      forall j | 0 <= j < |held| ensures held[j].key != MODIFIERS[n - 1].key {
        assert held[j] in held;
      }
    }
  }

  /** No key of a chord is pressed twice, so each press has one release to itself. */
  lemma ChordKeysDiffer(key: nat, modifiers: bv8, j: nat, k: nat)
    requires j < k < |Chord(key, modifiers)|
    ensures Chord(key, modifiers)[j].key != Chord(key, modifiers)[k].key
  {
    HeldKeys(key, modifiers, |MODIFIERS|);
    var held := Held(key, modifiers, |MODIFIERS|);
    assert held[j] in held;
  }

  /** The modifier bit of a key that is itself a modifier. */
  function OwnBit(key: nat): bv8 {
    if key == 0xA0 then 1 else if key == 0xA2 then 2 else if key == 0xA4 then 4 else if key == 0x5B then 8 else 0
  }

  /** The first n modifiers of the table, as bits. */
  function TableBits(n: nat): bv8 {
    if n == 0 then 0 else if n == 1 then 2 else if n == 2 then 6 else if n == 3 then 7 else 15
  }

  /** The wanted modifiers among the first n, without the key's own. */
  function Wanted(key: nat, modifiers: bv8, n: nat): bv8 {
    modifiers & TableBits(n) & !OwnBit(key)
  }

  predicate Skipped(key: nat, modifiers: bv8, m: Modifier) {
    modifiers & m.mask == 0 || m.key == key
  }

  function Or(a: bv8, b: bv8): bv8 {
    a | b
  }

  lemma WantedNext(key: nat, modifiers: bv8, n: nat)
    requires n < |MODIFIERS|
    ensures var m, active := MODIFIERS[n], Wanted(key, modifiers, n);
            Wanted(key, modifiers, n + 1) == if Skipped(key, modifiers, m) then active else Or(active, m.mask)
    ensures Wanted(key, modifiers, 0) == 0
  {
  }

  lemma HeldMore(key: nat, modifiers: bv8, n: nat)
    requires n < |MODIFIERS|
    ensures var held, m := Held(key, modifiers, n), MODIFIERS[n];
            Active(Held(key, modifiers, n + 1)) == if Skipped(key, modifiers, m) then Active(held) else Or(Active(held), m.mask)
    ensures Active(Held(key, modifiers, 0)) == 0
  {
    var held, m := Held(key, modifiers, n), MODIFIERS[n];
    ActivePush(held, m);
    assert held + [] == held;
  }

  lemma {:induction false} HeldBits(key: nat, modifiers: bv8, n: nat)
    requires n <= |MODIFIERS|
    ensures Active(Held(key, modifiers, n)) == Wanted(key, modifiers, n)
  {
    hide Active, Held, Wanted, Or, Skipped;
    if n == 0 {
      WantedNext(key, modifiers, 0);
      HeldMore(key, modifiers, 0);
    } else {
      HeldBits(key, modifiers, n - 1);
      WantedNext(key, modifiers, n - 1);
      HeldMore(key, modifiers, n - 1);
    }
  }

  lemma OrNothing(active: bv8)
    ensures active | 0 == active
  {
  }

  /** The key itself goes down last, and up first, under exactly the wanted modifiers, its own bit aside. */
  lemma KeyGoesDownUnderItsModifiers(key: nat, modifiers: bv8)
    ensures var chord := Chord(key, modifiers);
            var wanted := modifiers & 15 & !OwnBit(key);
            && Presses(chord)[|chord| - 1] == Sent(true, key, wanted)
            && Releases(chord)[0] == Sent(false, key, wanted)
            && Releases(chord)[|chord| - 1].modifiers == 0
  {
    var chord, held := Chord(key, modifiers), Held(key, modifiers, |MODIFIERS|);
    HeldBits(key, modifiers, |MODIFIERS|);
    ActivePush(held, Modifier(key, 0));
    OrNothing(Active(held));
    assert Active([]) == 0 && Wanted(key, modifiers, |MODIFIERS|) == modifiers & 15 & !OwnBit(key);
    hide Active, Held, OwnBit, Wanted;
    assert chord == held + [Modifier(key, 0)];
    assert chord[..|chord|] == chord && chord[..|chord| - 1] == held && chord[..0] == [];
    assert Presses(chord)[|chord| - 1].modifiers == Active(chord);
    assert Releases(chord)[0].modifiers == Active(held);
  }
}
