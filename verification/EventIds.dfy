/**
 Event ids: a fixed prefix and the slot, padded to a fixed width. The database compares
 them as text; this module is the proof that this is the order of the slots, that the
 number read back out of the highest id is the highest slot, and what
 `reportSkippedSlots` therefore returns.
 */
module EventIds {
  import opened Options
  import opened SlotLog

  const PREFIX: string := "evnt_"
  const FIRST_SLOT: nat := 1

  function Pow10(w: nat): (p: nat)
    ensures p > 0
  {
    if w == 0 then 1 else 10 * Pow10(w - 1)
  }

  // The decimal text of `n`, padded with zeros to `w` characters.
  function Padded(n: nat, w: nat): (s: string)
    ensures |s| == w
  {
    if w == 0 then [] else Padded(n / 10, w - 1) + ['0' + (n % 10) as char]
  }

  function Number(s: string): nat
    requires forall i | 0 <= i < |s| :: '0' <= s[i] <= '9'
  {
    if s == [] then 0 else 10 * Number(s[..|s| - 1]) + (s[|s| - 1] - '0') as nat
  }

  function SlotId(n: nat, w: nat): string {
    PREFIX + Padded(n, w)
  }

  // The order of text, character by character.
  predicate Below(a: string, b: string) {
    b != [] && (a == [] || a[0] < b[0] || (a[0] == b[0] && Below(a[1..], b[1..])))
  }

  lemma {:induction false} PaddedDigits(n: nat, w: nat)
    ensures forall i | 0 <= i < w :: '0' <= Padded(n, w)[i] <= '9'
  {
    if w > 0 {
      PaddedDigits(n / 10, w - 1);
    }
  }

  // Reading the digits back gives the slot.
  lemma {:induction false} NumberOfPadded(n: nat, w: nat)
    requires n < Pow10(w)
    ensures (forall i | 0 <= i < w :: '0' <= Padded(n, w)[i] <= '9') && Number(Padded(n, w)) == n
  {
    PaddedDigits(n, w);
    if w > 0 {
      NumberOfPadded(n / 10, w - 1);
      assert Padded(n, w)[..w - 1] == Padded(n / 10, w - 1);
    }
  }

  lemma {:induction false} BelowPrefix(p: string, a: string, b: string)
    ensures Below(p + a, p + b) <==> Below(a, b)
  {
    if p == [] {
      assert p + a == a && p + b == b;
    } else {
      BelowPrefix(p[1..], a, b);
      assert (p + a)[1..] == p[1..] + a && (p + b)[1..] == p[1..] + b;
    }
  }

  lemma {:induction false} BelowSuffix(a: string, b: string, x: char, y: char)
    requires |a| == |b|
    ensures Below(a + [x], b + [y]) <==> Below(a, b) || (a == b && x < y)
  {
    if a == [] {
      assert a + [x] == [x] && b + [y] == [y];
      assert [x][1..] == [] && [y][1..] == [];
    } else {
      assert (a + [x])[1..] == a[1..] + [x] && (b + [y])[1..] == b[1..] + [y];
      BelowSuffix(a[1..], b[1..], x, y);
      assert a == b <==> a[0] == b[0] && a[1..] == b[1..] by {
        assert a == [a[0]] + a[1..] && b == [b[0]] + b[1..];
      }
    }
  }

  lemma {:induction false} PaddedOrder(m: nat, n: nat, w: nat)
    requires m < Pow10(w) && n < Pow10(w)
    ensures Below(Padded(m, w), Padded(n, w)) <==> m < n
    ensures Padded(m, w) == Padded(n, w) <==> m == n
  {
    if w > 0 {
      var a, b := Padded(m / 10, w - 1), Padded(n / 10, w - 1);
      var x, y := '0' + (m % 10) as char, '0' + (n % 10) as char;
      PaddedOrder(m / 10, n / 10, w - 1);
      BelowSuffix(a, b, x, y);
      assert (x < y <==> m % 10 < n % 10) && (x == y <==> m % 10 == n % 10);
      assert a + [x] == b + [y] <==> a == b && x == y by {
        if a + [x] == b + [y] {
          assert (a + [x])[..w - 1] == a && (b + [y])[..w - 1] == b;
          assert (a + [x])[w - 1] == x && (b + [y])[w - 1] == y;
        }
      }
    }
  }

  // Below ten to the width, ids compare as their slots do.
  lemma IdOrder(m: nat, n: nat, w: nat)
    requires m < Pow10(w) && n < Pow10(w)
    ensures Below(SlotId(m, w), SlotId(n, w)) <==> m < n
    ensures SlotId(m, w) == SlotId(n, w) <==> m == n
  {
    PaddedOrder(m, n, w);
    BelowPrefix(PREFIX, Padded(m, w), Padded(n, w));
    assert SlotId(m, w)[|PREFIX|..] == Padded(m, w) && SlotId(n, w)[|PREFIX|..] == Padded(n, w);
  }

  // At ten to the width the order is lost: `lpad` cuts the text, and the id it gives is
  // one that an earlier slot has.
  function Lpad(digits: string, w: nat): string {
    if |digits| >= w then digits[..w] else seq(w - |digits|, _ => '0') + digits
  }

  function Decimal(n: nat): (s: string)
    ensures |s| > 0
  {
    if n < 10 then ['0' + n as char] else Decimal(n / 10) + ['0' + (n % 10) as char]
  }

  lemma {:induction false} DecimalIsPadded(n: nat, w: nat)
    requires n < Pow10(w) && w > 0
    ensures Lpad(Decimal(n), w) == Padded(n, w) && |Decimal(n)| <= w
  {
    if n < 10 {
      ZerosPadded(n, w);
    } else {
      assert Pow10(1) == 10;
      DecimalIsPadded(n / 10, w - 1);
      var d, e := Decimal(n / 10), '0' + (n % 10) as char;
      if |d| == w - 1 {
        assert Lpad(d, w - 1) == d;
        assert Lpad(d + [e], w) == d + [e];
      } else {
        var zeros := seq(w - 1 - |d|, _ => '0');
        assert zeros + (d + [e]) == (zeros + d) + [e];
      }
    }
  }

  lemma {:induction false} ZerosPadded(n: nat, w: nat)
    requires n < 10 && w > 0
    ensures Lpad(['0' + n as char], w) == Padded(n, w)
  {
    if w > 1 {
      ZerosPadded(0, w - 1);
      var zeros := seq(w - 1, _ => '0');
      assert seq(w - 2, _ => '0') + ['0'] == zeros;
      assert Padded(0, w - 1) == zeros;
    } else {
      assert Padded(n / 10, 0) == [];
    }
  }

  lemma {:induction false} DecimalOfPow10(w: nat)
    ensures Decimal(Pow10(w)) == "1" + seq(w, _ => '0')
  {
    if w > 0 {
      DecimalOfPow10(w - 1);
      assert Pow10(w) / 10 == Pow10(w - 1) && Pow10(w) % 10 == 0;
      assert seq(w - 1, _ => '0') + ['0'] == seq(w, _ => '0');
    } else {
      assert seq(0, _ => '0') == [];
    }
  }

  lemma WidthIsTheBound(w: nat)
    requires w > 0
    ensures Lpad(Decimal(Pow10(w)), w) == Lpad(Decimal(Pow10(w - 1)), w)
  {
    DecimalOfPow10(w);
    DecimalOfPow10(w - 1);
    assert ("1" + seq(w, _ => '0'))[..w] == "1" + seq(w - 1, _ => '0');
  }

  // -------------------------------------------------------------------------
  // reportSkippedSlots

  datatype Report<E> = Report(events: seq<E>, hasMore: bool)

  // The rows `from` to `to`, both excluded, by comparing ids, in id order.
  function Between<E>(rows: Slots<E>, from: nat, to: nat, upTo: nat, w: nat): seq<E>
    requires forall k | 0 < k <= upTo :: k in rows
  {
    if upTo == 0 then []
    else Between(rows, from, to, upTo - 1, w)
         + (if Below(SlotId(from, w), SlotId(upTo, w)) && Below(SlotId(upTo, w), SlotId(to, w))
            then [rows[upTo]] else [])
  }

  function ReportSkipped<E>(rows: Slots<E>, committed: nat, askedFor: nat, w: nat): Option<Report<E>>
    requires forall k | 0 < k <= |rows| :: k in rows
  {
    if askedFor < FIRST_SLOT || committed <= askedFor + 1 then None
    else
      var skipped := Between(rows, askedFor, committed, |rows|, w);
      Some(Report(skipped, |skipped| < committed - askedFor - 1))
  }

  lemma {:induction false} BetweenIsNumeric<E>(rows: Slots<E>, from: nat, to: nat, upTo: nat, w: nat)
    requires forall k | 0 < k <= upTo :: k in rows
    requires from < to < Pow10(w) && upTo < Pow10(w)
    ensures var last := if upTo < to then upTo else to - 1;
            Between(rows, from, to, upTo, w) == if last <= from then [] else Values(rows, from, last - from)
  {
    hide Below, SlotId;
    if upTo > 0 {
      BetweenIsNumeric(rows, from, to, upTo - 1, w);
      IdOrder(from, upTo, w);
      IdOrder(upTo, to, w);
      if upTo == from + 1 && upTo < to {
        assert Values(rows, from, 0) == [];
      }
    }
  }

  // The rows a reader sees: the committed ones, and for a create that reports from inside
  // its transaction its own.
  function Seen<E>(s: Store<E>, t: Option<nat>): Slots<E>
    requires t.Some? ==> t.value in s.writers
  {
    if t.Some? then Sees(s, t.value) else s.rows
  }

  lemma SeenIsDense<E>(ss: seq<Store<E>>, actions: seq<Action<E>>, k: nat, t: Option<nat>)
    requires SlotLog.History(ss, actions) && k < |ss| && (t.Some? ==> t.value in ss[k].writers)
    ensures forall i: nat :: i in Seen(ss[k], t) <==> 1 <= i <= |Seen(ss[k], t)|
  {
    SlotsAreDense(ss, actions, k);
    if t.Some? {
      AlwaysInv(ss, actions, k);
      InvDense(ss[k]);
      var n, mine := |ss[k].rows|, ss[k].writers[t.value].mine;
      Own(ss[k], n, t.value);
      DenseJoin(ss[k].rows, mine, n, |mine|);
      DenseSize(ss[k].rows + mine, 0, n + |mine|);
    }
  }

  // Whatever the writers did meanwhile, every event between the slot a writer asked for
  // and the one it got is returned, in order, and nothing more is left to fetch.
  lemma SkippedAreAllReported<E>(ss: seq<Store<E>>, actions: seq<Action<E>>, k: nat, t: Option<nat>,
                                 committed: nat, askedFor: nat, w: nat)
    requires SlotLog.History(ss, actions) && k < |ss| && (t.Some? ==> t.value in ss[k].writers)
    requires committed in Seen(ss[k], t) && |Seen(ss[k], t)| < Pow10(w)
    ensures var rows := Seen(ss[k], t);
            && (forall i | 0 < i <= |rows| :: i in rows)
            && var r := ReportSkipped(rows, committed, askedFor, w);
               if askedFor < FIRST_SLOT || committed <= askedFor + 1 then r == None
               else && 0 < committed <= |rows|
                    && r == Some(Report(Values(rows, askedFor, committed - askedFor - 1), false))
  {
    var rows := Seen(ss[k], t);
    SeenIsDense(ss, actions, k, t);
    if askedFor >= FIRST_SLOT && committed > askedFor + 1 {
      BetweenIsNumeric(rows, askedFor, committed, |rows|, w);
    }
  }
}
