/** UTC timestamps of fixed width: comparing their texts is comparing the moments. */
module Timestamps {
  import opened Utf8
  import opened Canonical

  datatype Moment = Moment(year: nat, month: nat, day: nat, hour: nat, minute: nat, second: nat)

  predicate Fits(m: Moment) {
    && m.year < 10_000 && 1 <= m.month <= 12 && 1 <= m.day <= 31
    && m.hour < 24 && m.minute < 60 && m.second < 60
  }

  function Two(n: nat): Text
    requires n < 100
  {
    [0x30 + n / 10, 0x30 + n % 10]
  }

  function Four(n: nat): Text
    requires n < 10_000
  {
    Two(n / 100) + Two(n % 100)
  }

  /** YYYY-MM-DDTHH:MM:SSZ, every field zero-padded. */
  function Written(m: Moment): Text
    requires Fits(m)
  {
    Four(m.year) + ([0x2D] + (Two(m.month) + ([0x2D] + (Two(m.day) + ([0x54] + (Two(m.hour) + ([0x3A]
      + (Two(m.minute) + ([0x3A] + (Two(m.second) + [0x5A]))))))))))
  }

  predicate Before(a: Moment, b: Moment) {
    || a.year < b.year
    || (a.year == b.year &&
         (|| a.month < b.month
          || (a.month == b.month &&
               (|| a.day < b.day
                || (a.day == b.day &&
                     (|| a.hour < b.hour
                      || (a.hour == b.hour &&
                           (a.minute < b.minute || (a.minute == b.minute && a.second < b.second)))))))))
  }

  /** The first difference of two texts with prefixes of one length decides. */
  lemma {:induction false} LessAfterPrefix(p: Text, q: Text, s: Text, t: Text)
    requires |p| == |q|
    ensures Less(p + s, q + t) <==> if p == q then Less(s, t) else Less(p, q)
    decreases |p|
  {
    if |p| == 0 {
      assert p + s == s && q + t == t;
    } else {
      assert (p + s)[1..] == p[1..] + s && (q + t)[1..] == q[1..] + t;
      assert p == [p[0]] + p[1..] && q == [q[0]] + q[1..];
      LessAfterPrefix(p[1..], q[1..], s, t);
    }
  }

  lemma TwoOrder(a: nat, b: nat)
    requires a < 100 && b < 100
    ensures Less(Two(a), Two(b)) <==> a < b
    ensures Two(a) == Two(b) <==> a == b
  {
    LessAfterPrefix([0x30 + a / 10], [0x30 + b / 10], [0x30 + a % 10], [0x30 + b % 10]);
    assert Two(a) == [0x30 + a / 10] + [0x30 + a % 10] && Two(b) == [0x30 + b / 10] + [0x30 + b % 10];
    assert Two(a)[0] == 0x30 + a / 10 && Two(a)[1] == 0x30 + a % 10;
    assert Two(b)[0] == 0x30 + b / 10 && Two(b)[1] == 0x30 + b % 10;
  }

  lemma FourOrder(a: nat, b: nat)
    requires a < 10_000 && b < 10_000
    ensures Less(Four(a), Four(b)) <==> a < b
    ensures Four(a) == Four(b) <==> a == b
  {
    TwoOrder(a / 100, b / 100);
    TwoOrder(a % 100, b % 100);
    hide Two, Less;
    LessAfterPrefix(Two(a / 100), Two(b / 100), Two(a % 100), Two(b % 100));
    FourParts(a);
    FourParts(b);
  }

  lemma FourParts(a: nat)
    requires a < 10_000
    ensures |Two(a / 100)| == 2 && Four(a)[..2] == Two(a / 100) && Four(a)[2..] == Two(a % 100)
  {
  }

  lemma FieldThen(a: nat, b: nat, separator: CodePoint, s: Text, t: Text)
    requires a < 100 && b < 100
    ensures Less([separator] + (Two(a) + s), [separator] + (Two(b) + t)) <==> a < b || (a == b && Less(s, t))
  {
    LessAfterPrefix([separator], [separator], Two(a) + s, Two(b) + t);
    LessAfterPrefix(Two(a), Two(b), s, t);
    TwoOrder(a, b);
  }

  lemma SameEnd(end: Text)
    ensures !Less(end, end)
  {
    LessIsTotal(end, end);
  }

  /** The texts are ordered as the moments are. */
  lemma OrderAgrees(a: Moment, b: Moment)
    requires Fits(a) && Fits(b)
    ensures Less(Written(a), Written(b)) <==> Before(a, b)
  {
    var z: Text := [0x5A];
    var a6, b6 := [0x3A] + (Two(a.second) + z), [0x3A] + (Two(b.second) + z);
    var a5, b5 := [0x3A] + (Two(a.minute) + a6), [0x3A] + (Two(b.minute) + b6);
    var a4, b4 := [0x54] + (Two(a.hour) + a5), [0x54] + (Two(b.hour) + b5);
    var a3, b3 := [0x2D] + (Two(a.day) + a4), [0x2D] + (Two(b.day) + b4);
    var a2, b2 := [0x2D] + (Two(a.month) + a3), [0x2D] + (Two(b.month) + b3);
    assert Written(a) == Four(a.year) + a2 && Written(b) == Four(b.year) + b2;
    hide Less, Two, Four, Written;
    SameEnd(z);
    FieldThen(a.second, b.second, 0x3A, z, z);
    FieldThen(a.minute, b.minute, 0x3A, a6, b6);
    FieldThen(a.hour, b.hour, 0x54, a5, b5);
    FieldThen(a.day, b.day, 0x2D, a4, b4);
    FieldThen(a.month, b.month, 0x2D, a3, b3);
    FourOrder(a.year, b.year);
    FourLength(a.year);
    FourLength(b.year);
    LessAfterPrefix(Four(a.year), Four(b.year), a2, b2);
  }

  lemma FourLength(a: nat)
    requires a < 10_000
    ensures |Four(a)| == 4
  {
  }
}
