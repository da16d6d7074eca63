/** The names of generation directories, which the pruner sorts as strings. */
module GenerationNames {
  import opened Decimals

  /** A moment to the second, in UTC. */
  datatype CivilTime = CivilTime(year: nat, month: nat, day: nat, hour: nat, minute: nat, second: nat)

  ghost predicate InRange(t: CivilTime) {
    1000 <= t.year <= 9999 && 1 <= t.month <= 12 && 1 <= t.day <= 31 && t.hour <= 23 && t.minute <= 59 && t.second <= 59
  }

  /** The order of time. */
  predicate Earlier(t: CivilTime, u: CivilTime) {
    || t.year < u.year
    || (t.year == u.year && (|| t.month < u.month
    || (t.month == u.month && (|| t.day < u.day
    || (t.day == u.day && (|| t.hour < u.hour
    || (t.hour == u.hour && (|| t.minute < u.minute
    || (t.minute == u.minute && t.second < u.second)))))))))
  }

  /** `t.strftime("%Y%m%dT%H%M%S")` */
  function Formatted(t: CivilTime): string {
    Padded(t.year, 4) + Padded(t.month, 2) + Padded(t.day, 2)
    + "T" + Padded(t.hour, 2) + Padded(t.minute, 2) + Padded(t.second, 2)
  }

  /** The number that stands for a moment in the model: all the digits of its name. */
  function Stamp(t: CivilTime): nat {
    ((((t.year * 100 + t.month) * 100 + t.day) * 100 + t.hour) * 100 + t.minute) * 100 + t.second
  }

  /** The name of the generation with this stamp. */
  function NameOf(stamp: nat): string {
    Padded(stamp / 1000000, 8) + "T" + Padded(stamp % 1000000, 6)
  }

  lemma TwoDigitsMore(n: nat, m: nat, width: nat)
    requires m < 100
    ensures Padded(n * 100 + m, width + 2) == Padded(n, width) + Padded(m, 2)
  {
    var k := n * 100 + m;
    assert k % 10 == m % 10 && k / 10 == n * 10 + m / 10;
    assert (n * 10 + m / 10) % 10 == m / 10 && (n * 10 + m / 10) / 10 == n;
    assert Padded(m / 10, 1) == [Digit(m / 10)] by {
      assert Padded(m / 10 / 10, 0) == "";
    }
    assert Padded(m, 2) == [Digit(m / 10)] + [Digit(m % 10)];
    assert Padded(k / 10, width + 1) == Padded(n, width) + [Digit(m / 10)];
  }

  /** The stamp names the generation as the clock does. */
  lemma StampNames(t: CivilTime)
    requires InRange(t)
    ensures NameOf(Stamp(t)) == Formatted(t)
  {
    hide Padded;
    var date, time := (t.year * 100 + t.month) * 100 + t.day, (t.hour * 100 + t.minute) * 100 + t.second;
    assert Stamp(t) == date * 1000000 + time && time < 1000000;
    assert Stamp(t) / 1000000 == date && Stamp(t) % 1000000 == time;
    TwoDigitsMore(t.year, t.month, 4);
    TwoDigitsMore(t.year * 100 + t.month, t.day, 6);
    TwoDigitsMore(t.hour, t.minute, 2);
    TwoDigitsMore(t.hour * 100 + t.minute, t.second, 4);
  }

  lemma StampOrder(t: CivilTime, u: CivilTime)
    requires InRange(t) && InRange(u)
    ensures Stamp(t) < Stamp(u) <==> Earlier(t, u)
  {
  }

  /** Names in reverse order are generations from the newest to the oldest. */
  lemma NamesSortByTime(s: nat, t: nat)
    requires s < Power10(14) && t < Power10(14)
    ensures Before(NameOf(s), NameOf(t)) <==> s < t
    ensures NameOf(s) == NameOf(t) ==> s == t
  {
    Fourteen();
    assert s / 1000000 < Power10(8) && t / 1000000 < Power10(8);
    assert s % 1000000 < Power10(6) && t % 1000000 < Power10(6);
    var ds, dt := Padded(s / 1000000, 8), Padded(t / 1000000, 8);
    var hs, ht := Padded(s % 1000000, 6), Padded(t % 1000000, 6);
    PaddedRoundTrip(s / 1000000, 8);
    PaddedRoundTrip(t / 1000000, 8);
    PaddedRoundTrip(s % 1000000, 6);
    PaddedRoundTrip(t % 1000000, 6);
    hide Padded, ValueOf, Power10;
    BeforeIsLess(ds, dt);
    BeforeIsLess(hs, ht);
    if ds == dt {
      assert NameOf(s) == (ds + "T") + hs && NameOf(t) == (ds + "T") + ht;
      BeforeWithPrefix(ds + "T", hs, ht);
      assert NameOf(s)[9..] == hs && NameOf(t)[9..] == ht;
    } else {
      BeforeByPrefix(ds, dt, "T" + hs, "T" + ht);
      assert NameOf(s) == ds + ("T" + hs) && NameOf(t) == dt + ("T" + ht);
      assert NameOf(s)[..8] == ds && NameOf(t)[..8] == dt;
    }
  }

  lemma Fourteen()
    ensures Power10(6) == 1000000 && Power10(8) == 100000000 && Power10(14) == 100000000000000
  {
    assert Power10(2) == 100;
    assert Power10(4) == 10000;
    assert Power10(6) == 1000000;
    assert Power10(8) == 100000000;
    assert Power10(10) == 10000000000;
    assert Power10(12) == 1000000000000;
  }

  /** Different parts of one length decide, whatever follows. */
  lemma {:induction false} BeforeByPrefix(a: string, b: string, c: string, d: string)
    requires |a| == |b| && a != b
    ensures Before(a + c, b + d) <==> Before(a, b)
  {
    assert (a + c)[1..] == a[1..] + c && (b + d)[1..] == b[1..] + d;
    if a[0] == b[0] {
      assert a == [a[0]] + a[1..] && b == [b[0]] + b[1..];
      assert a[1..] != b[1..];
      BeforeByPrefix(a[1..], b[1..], c, d);
    }
  }

  lemma TwoDigits(n: nat)
    requires n < 100
    ensures Padded(n, 2) == [Digit(n / 10)] + [Digit(n % 10)]
  {
    assert n / 10 % 10 == n / 10;
    assert Padded(n / 10, 1) == Padded(n / 10 / 10, 0) + [Digit(n / 10 % 10)];
  }

  /** What a name looks like. */
  lemma NameExample()
    ensures Formatted(CivilTime(2024, 3, 7, 19, 5, 42)) == "20240307T190542"
  {
    TwoDigitsMore(20, 24, 2);
    TwoDigits(20);
    TwoDigits(24);
    TwoDigits(3);
    TwoDigits(7);
    TwoDigits(19);
    TwoDigits(5);
    TwoDigits(42);
    hide Padded;
    assert Padded(2024, 4) == "2024";
  }

  /** The name of a later build sorts after the name of an earlier one, and two builds never share one. */
  lemma NewerNameSortsLater(t: CivilTime, u: CivilTime)
    requires InRange(t) && InRange(u)
    ensures Before(Formatted(t), Formatted(u)) <==> Earlier(t, u)
    ensures Formatted(t) == Formatted(u) ==> t == u
  {
    StampNames(t);
    StampNames(u);
    StampOrder(t, u);
    StampOrder(u, t);
    Fourteen();
    NamesSortByTime(Stamp(t), Stamp(u));
  }
}
