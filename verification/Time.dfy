/**
 Model of src/core/time.rs: elapsed time since an RFC 3339 stamp, and the
 parser for Go-style durations.

 Time is one monotone clock counted in milliseconds. A byte string is the
 sequence of its bytes, each written as the character with that code.
 */
module Time {
  import opened Basics

  // ---------------------------------------------------------------- stamps

  datatype Timestamp = At(ms: nat) | Unparsable

  // `Duration::MAX`, in milliseconds.
  const DURATION_MAX: nat := U64 * 1000 - 1

  // A missing or malformed stamp is infinitely old; a stamp from the future has age zero.
  function ElapsedSince(stamp: Option<Timestamp>, now: nat): nat {
    match stamp
    case None => DURATION_MAX
    case Some(Unparsable) => DURATION_MAX
    case Some(At(t)) => if t <= now then now - t else 0
  }

  // --------------------------------------------------------- exact reading

  // What the byte loop would hold if machine integers were unbounded:
  // the seconds of the finished groups, and the number being read.
  datatype Reading = Reading(total: nat, n: nat)

  predicate IsDigit(c: char) { '0' <= c <= '9' }

  function DigitValue(c: char): nat
    requires IsDigit(c)
  {
    c as int - '0' as int
  }

  function ReadByte(r: Reading, c: char): Reading {
    if IsDigit(c) then Reading(r.total, r.n * 10 + DigitValue(c))
    else if c == 'h' then Reading(r.total + r.n * 3600, 0)
    else if c == 'm' then Reading(r.total + r.n * 60, 0)
    else if c == 's' then Reading(r.total + r.n, 0)
    else Reading(r.total, 0)
  }

  function Read(s: string): Reading {
    if s == [] then Reading(0, 0) else ReadByte(Read(s[..|s| - 1]), s[|s| - 1])
  }

  // The value of `parse_go_duration`: the exact reading, clipped to 64 bits.
  function GoDuration(s: string): nat {
    Min(Read(s).total, U64_MAX)
  }

  method ParseGoDuration(s: string) returns (secs: nat)
    ensures secs == GoDuration(s)
  {
    var total: nat, n: nat := 0, 0;
    for i := 0 to |s|
      invariant total == Min(Read(s[..i]).total, U64_MAX)
      invariant n == Min(Read(s[..i]).n, U64_MAX)
    {
      var c := s[i];
      assert s[..i + 1][..i] == s[..i];
      if '0' <= c <= '9' {
        n := SatAdd(SatMul(n, 10), DigitValue(c));
      } else if c == 'h' {
        total := SatAdd(total, SatMul(n, 3600));
        n := 0;
      } else if c == 'm' {
        total := SatAdd(total, SatMul(n, 60));
        n := 0;
      } else if c == 's' {
        total := SatAdd(total, n);
        n := 0;
      } else {
        n := 0;
      }
    }
    assert s[..|s|] == s;
    secs := total;
  }

  // ------------------------------------------------------ groups of h, m, s

  datatype Unit = Hours | Minutes | Seconds {
    function Scale(): nat {
      match this case Hours => 3600 case Minutes => 60 case Seconds => 1
    }
    function Letter(): char {
      match this case Hours => 'h' case Minutes => 'm' case Seconds => 's'
    }
  }

  // A run of digits, leading zeros and the empty run included, and its unit.
  datatype Group = Group(digits: string, unit: Unit)

  predicate Digits(ds: string) { forall i :: 0 <= i < |ds| ==> IsDigit(ds[i]) }

  predicate Groups(gs: seq<Group>) { forall i :: 0 <= i < |gs| ==> Digits(gs[i].digits) }

  function Number(ds: string): nat
    requires Digits(ds)
  {
    if ds == [] then 0 else Number(ds[..|ds| - 1]) * 10 + DigitValue(ds[|ds| - 1])
  }

  function Written(gs: seq<Group>): string {
    if gs == [] then ""
    else Written(gs[..|gs| - 1]) + gs[|gs| - 1].digits + [gs[|gs| - 1].unit.Letter()]
  }

  function TotalSeconds(gs: seq<Group>): nat
    requires Groups(gs)
  {
    if gs == [] then 0
    else TotalSeconds(gs[..|gs| - 1]) + Number(gs[|gs| - 1].digits) * gs[|gs| - 1].unit.Scale()
  }

  lemma {:induction false} ReadDigits(s: string, ds: string)
    requires Digits(ds)
    requires Read(s).n == 0
    ensures Read(s + ds) == Reading(Read(s).total, Number(ds))
  {
    if ds == [] {
      assert s + ds == s;
    } else {
      var k := |ds| - 1;
      ReadDigits(s, ds[..k]);
      assert (s + ds)[..|s + ds| - 1] == s + ds[..k];
    }
  }

  // Every string of integer h/m/s groups reads as the sum of its groups.
  lemma {:induction false} GroupsReadExactly(gs: seq<Group>)
    requires Groups(gs)
    ensures Read(Written(gs)) == Reading(TotalSeconds(gs), 0)
  {
    if gs != [] {
      var k := |gs| - 1;
      var g := gs[k];
      GroupsReadExactly(gs[..k]);
      ReadDigits(Written(gs[..k]), g.digits);
      var w := Written(gs[..k]) + g.digits;
      assert (w + [g.unit.Letter()])[..|w|] == w;
    }
  }

  lemma ParsedGroupsClip(gs: seq<Group>)
    requires Groups(gs)
    ensures GoDuration(Written(gs)) == Min(TotalSeconds(gs), U64_MAX)
  {
    GroupsReadExactly(gs);
  }

  // ---------------------------------------------------------- any string

  // The digits a string ends in.
  function Tail(s: string): (ds: string)
    ensures Digits(ds)
  {
    if s == "" || !IsDigit(s[|s| - 1]) then "" else Tail(s[..|s| - 1]) + [s[|s| - 1]]
  }

  // Each unit letter counts the digits right before it; nothing else counts.
  function Worth(s: string): nat {
    if s == "" then 0
    else
      var before, c := s[..|s| - 1], s[|s| - 1];
      var scale := if c == 'h' then 3600 else if c == 'm' then 60 else if c == 's' then 1 else 0;
      Worth(before) + scale * Number(Tail(before))
  }

  // So any other character drops the number it ends: "1x30m" is half an hour.
  lemma {:induction false} EveryStringReads(s: string)
    ensures Read(s) == Reading(Worth(s), Number(Tail(s)))
  {
    if s != "" {
      var before, c := s[..|s| - 1], s[|s| - 1];
      EveryStringReads(before);
      if IsDigit(c) {
        assert Tail(s)[..|Tail(before)|] == Tail(before);
      }
    }
  }

  // ------------------------------------------------------------ additivity

  lemma {:induction false} ReadAfterClean(a: string, b: string)
    requires Read(a).n == 0
    ensures Read(a + b) == Reading(Read(a).total + Read(b).total, Read(b).n)
  {
    if b == [] {
      assert a + b == a;
    } else {
      var k := |b| - 1;
      ReadAfterClean(a, b[..k]);
      assert (a + b)[..|a + b| - 1] == a + b[..k];
    }
  }

  // Parsing is additive behind `a`, for every continuation, exactly when `a` leaves no
  // number unfinished.
  lemma AdditiveExactlyAtGroupEnd(a: string)
    ensures Read(a).n == 0 <==> forall b :: Read(a + b).total == Read(a).total + Read(b).total
  {
    if Read(a).n == 0 {
      forall b ensures Read(a + b).total == Read(a).total + Read(b).total {
        ReadAfterClean(a, b);
      }
    } else {
      assert (a + "s")[..|a|] == a;
      assert Read("s").total == 0;
      assert Read(a + "s").total != Read(a).total + Read("s").total;
    }
  }

  lemma ParsingAddsUp(a: string, b: string)
    requires Read(a).n == 0
    ensures GoDuration(a + b) == SatAdd(GoDuration(a), GoDuration(b))
  {
    ReadAfterClean(a, b);
  }

  // ------------------------------------------------------------ round trip

  function Decimal(n: nat): (ds: string)
    ensures |ds| >= 1
  {
    if n < 10 then ['0' + n as char] else Decimal(n / 10) + ['0' + (n % 10) as char]
  }

  lemma {:induction false} DecimalReadsBack(n: nat)
    ensures Digits(Decimal(n)) && Number(Decimal(n)) == n
  {
    if n >= 10 {
      DecimalReadsBack(n / 10);
      var hi := Decimal(n / 10);
      assert Decimal(n)[..|hi|] == hi;
    } else {
      var d := Decimal(n);
      assert d[..0] == [];
      assert Number(d) == Number(d[..0]) * 10 + DigitValue(d[0]);
    }
  }

  // The canonical "XhYmZs" spelling of a number of seconds.
  function Spelled(secs: nat): seq<Group> {
    [Group(Decimal(secs / 3600), Hours),
     Group(Decimal(secs / 60 % 60), Minutes),
     Group(Decimal(secs % 60), Seconds)]
  }

  lemma TotalOfThree(gs: seq<Group>)
    requires |gs| == 3 && Groups(gs)
    requires gs[0].unit == Hours && gs[1].unit == Minutes && gs[2].unit == Seconds
    ensures TotalSeconds(gs) == Number(gs[0].digits) * 3600 + Number(gs[1].digits) * 60 + Number(gs[2].digits)
  {
    var two, one := gs[..2], gs[..2][..1];
    assert two == [gs[0], gs[1]] && one == [gs[0]] && one[..0] == [];
    assert TotalSeconds(one) == Number(gs[0].digits) * 3600;
    assert TotalSeconds(two) == TotalSeconds(one) + Number(gs[1].digits) * 60;
  }

  lemma ParseUndoesSpelling(secs: nat)
    requires secs <= U64_MAX
    ensures GoDuration(Written(Spelled(secs))) == secs
  {
    var gs := Spelled(secs);
    DecimalReadsBack(secs / 3600);
    DecimalReadsBack(secs / 60 % 60);
    DecimalReadsBack(secs % 60);
    GroupsReadExactly(gs);
    TotalOfThree(gs);
    SplitSeconds(secs);
  }

  lemma SplitSeconds(secs: nat)
    ensures secs / 3600 * 3600 + secs / 60 % 60 * 60 + secs % 60 == secs
  {
    var m := secs / 60;
    assert m / 60 == secs / 3600;
    assert secs == m * 60 + secs % 60;
    assert m == m / 60 * 60 + m % 60;
  }
}
