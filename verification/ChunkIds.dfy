/**
 Printed chunk ids: f"chunk_{index:03d}" (metadata.py), read back by neighbour_ids
 (helpers.py) and sorted as strings by the store.
 */
module ChunkIds {
  import opened Prelude

  function Digit(n: nat): char
    requires n < 10
  {
    ('0' as int + n) as char
  }

  function Value(c: char): nat
    requires '0' <= c <= '9'
  {
    c as int - '0' as int
  }

  function Decimal(n: nat): (s: string)
    ensures s != ""
  {
    if n < 10 then [Digit(n)] else Decimal(n / 10) + [Digit(n % 10)]
  }

  /** f"{n:03d}". */
  function Padded(n: nat): string {
    if n < 10 then "00" + Decimal(n) else if n < 100 then "0" + Decimal(n) else Decimal(n)
  }

  const PREFIX: string := "chunk_"

  function ChunkId(n: nat): string {
    PREFIX + Padded(n)
  }

  // -- reading an id back ------------------------------------------------------------------

  predicate AllDigits(s: string) {
    forall i :: 0 <= i < |s| ==> '0' <= s[i] <= '9'
  }

  /** int(s). */
  function ToInt(s: string): nat
    requires AllDigits(s)
  {
    if s == "" then 0 else 10 * ToInt(s[..|s| - 1]) + Value(s[|s| - 1])
  }

  /** The number in ^chunk_(\d+)$, where $ also matches before a newline at the end. */
  function ParseId(id: string): Option<nat> {
    var body := if id != "" && id[|id| - 1] == '\n' then id[..|id| - 1] else id;
    if |body| > |PREFIX| && body[..|PREFIX|] == PREFIX && AllDigits(body[|PREFIX|..]) then
      Some(ToInt(body[|PREFIX|..]))
    else
      None
  }

  lemma {:induction false} DecimalReadsBack(n: nat)
    ensures AllDigits(Decimal(n)) && ToInt(Decimal(n)) == n
  {
    if n >= 10 {
      DecimalReadsBack(n / 10);
      var s := Decimal(n);
      assert s[..|s| - 1] == Decimal(n / 10);
    } else {
      assert [Digit(n)][..0] == "";
    }
  }

  lemma ZeroInFront(s: string)
    requires AllDigits(s)
    ensures AllDigits("0" + s) && ToInt("0" + s) == ToInt(s)
    decreases |s|
  {
    var t := "0" + s;
    if s == "" {
      assert t[..0] == "";
    } else {
      assert t[..|t| - 1] == "0" + s[..|s| - 1];
      ZeroInFront(s[..|s| - 1]);
    }
  }

  lemma PaddedReadsBack(n: nat)
    ensures AllDigits(Padded(n)) && Padded(n) != "" && ToInt(Padded(n)) == n
  {
    DecimalReadsBack(n);
    ZeroInFront(Decimal(n));
    ZeroInFront("0" + Decimal(n));
    assert "00" + Decimal(n) == "0" + ("0" + Decimal(n));
  }

  /** A printed id gives its number back, for every number. */
  lemma IdReadsBack(n: nat)
    ensures ParseId(ChunkId(n)) == Some(n)
  {
    PaddedReadsBack(n);
    var id := ChunkId(n);
    assert id[|id| - 1] == Padded(n)[|Padded(n)| - 1];
    assert id[..|PREFIX|] == PREFIX && id[|PREFIX|..] == Padded(n);
  }

  /** So no two numbers print alike. */
  lemma IdsAreDistinct(m: nat, n: nat)
    requires ChunkId(m) == ChunkId(n)
    ensures m == n
  {
    IdReadsBack(m);
    IdReadsBack(n);
  }

  /** What is read as an id: the prefix and digits, leading zeros or none, and perhaps a newline behind. */
  lemma ParseIdIff(id: string, n: nat)
    ensures ParseId(id) == Some(n) <==>
            exists digits :: digits != "" && AllDigits(digits) && ToInt(digits) == n
                             && (id == "chunk_" + digits || id == "chunk_" + digits + "\n")
  {
    if digits :| digits != "" && AllDigits(digits) && ToInt(digits) == n
                 && (id == "chunk_" + digits || id == "chunk_" + digits + "\n") {
      var body := "chunk_" + digits;
      assert body[..|PREFIX|] == PREFIX && body[|PREFIX|..] == digits;
      assert body[|body| - 1] == digits[|digits| - 1];
      assert (body + "\n")[..|body|] == body;
    }
    if ParseId(id) == Some(n) {
      var body := if id != "" && id[|id| - 1] == '\n' then id[..|id| - 1] else id;
      var digits := body[|PREFIX|..];
      assert body == "chunk_" + digits;
      assert body == id || id == body + "\n";
    }
  }

  // -- the order of strings -------------------------------------------------------------------

  /** The order of Python strings, and of SQLite text for these ids. */
  predicate Less(a: string, b: string) {
    if b == "" then false
    else if a == "" then true
    else if a[0] != b[0] then a[0] < b[0]
    else Less(a[1..], b[1..])
  }

  lemma {:induction false} LessIsTotal(a: string, b: string)
    ensures a == b || Less(a, b) || Less(b, a)
  {
    if a != "" && b != "" && a[0] == b[0] {
      LessIsTotal(a[1..], b[1..]);
      assert a == [a[0]] + a[1..] && b == [b[0]] + b[1..];
    }
  }

  lemma {:induction false} LessIsStrict(a: string, b: string)
    requires Less(a, b)
    ensures !Less(b, a) && a != b
  {
    if a != "" && a[0] == b[0] {
      LessIsStrict(a[1..], b[1..]);
    }
  }

  lemma {:induction false} LessIsTransitive(a: string, b: string, c: string)
    requires Less(a, b) && Less(b, c)
    ensures Less(a, c)
  {
    if a != "" && a[0] == b[0] == c[0] {
      LessIsTransitive(a[1..], b[1..], c[1..]);
    }
  }

  lemma {:induction false} SamePrefix(p: string, a: string, b: string)
    ensures Less(p + a, p + b) <==> Less(a, b)
  {
    if p == "" {
      assert p + a == a && p + b == b;
    } else {
      assert (p + a)[1..] == p[1..] + a && (p + b)[1..] == p[1..] + b;
      SamePrefix(p[1..], a, b);
    }
  }

  /** Below 1000 an id is three digits. */
  lemma ThreeDigits(n: nat)
    requires n < 1000
    ensures Padded(n) == [Digit(n / 100), Digit(n / 10 % 10), Digit(n % 10)]
  {
    if n < 10 {
      assert n / 100 == 0 && n / 10 == 0 && n % 10 == n;
    } else if n < 100 {
      assert n / 100 == 0 && n / 10 < 10 && n / 10 % 10 == n / 10;
      assert Decimal(n) == [Digit(n / 10)] + [Digit(n % 10)];
    } else {
      assert n / 10 / 10 == n / 100;
      assert Decimal(n / 10) == Decimal(n / 10 / 10) + [Digit(n / 10 % 10)];
    }
  }

  lemma DigitsDecide(m: nat, n: nat)
    requires m < n < 1000
    ensures m / 100 < n / 100
         || (m / 100 == n / 100 && m / 10 % 10 < n / 10 % 10)
         || (m / 100 == n / 100 && m / 10 % 10 == n / 10 % 10 && m % 10 < n % 10)
  {
    assert m / 10 == 10 * (m / 100) + m / 10 % 10;
    assert n / 10 == 10 * (n / 100) + n / 10 % 10;
  }

  lemma LessAtFirstDifference(a: string, b: string)
    requires |a| == 3 && |b| == 3
    requires a[0] < b[0] || (a[0] == b[0] && (a[1] < b[1] || (a[1] == b[1] && a[2] < b[2])))
    ensures Less(a, b)
  {
    assert a[1..][0] == a[1] && b[1..][0] == b[1];
    assert a[1..][1..][0] == a[2] && b[1..][1..][0] == b[2];
  }

  /** Below 1000 the order of the strings is the order of the numbers. */
  lemma IdsAreOrdered(m: nat, n: nat)
    requires m < n < 1000
    ensures Less(ChunkId(m), ChunkId(n))
  {
    ThreeDigits(m);
    ThreeDigits(n);
    DigitsDecide(m, n);
    LessAtFirstDifference(Padded(m), Padded(n));
    SamePrefix(PREFIX, Padded(m), Padded(n));
  }

  /** From 1000 on it is not: chunk_1000 comes before chunk_101. */
  lemma IdsAreMisordered()
    ensures Less(ChunkId(1000), ChunkId(101))
  {
    ThreeDigits(101);
    assert Decimal(1000) == "1000" by {
      assert Decimal(10) == "10";
      assert Decimal(100) == "100";
    }
    assert Less("00", "1");
    assert Less("000", "01");
    assert Less("1000", "101");
    SamePrefix(PREFIX, "1000", "101");
  }

  /** The ids of a batch sort as strings like their numbers exactly if there are at most a thousand. */
  lemma IdsAreSortedIff(count: nat)
    ensures (forall m, n :: 0 <= m < n < count ==> Less(ChunkId(m), ChunkId(n))) <==> count <= 1000
  {
    if count > 1000 {
      IdsAreMisordered();
      LessIsStrict(ChunkId(1000), ChunkId(101));
    } else {
      forall m, n | 0 <= m < n < count
        ensures Less(ChunkId(m), ChunkId(n))
      {
        IdsAreOrdered(m, n);
      }
    }
  }

  // -- point ids ---------------------------------------------------------------------------------

  /** metadata.py: the epoch in milliseconds, times 1000, plus the index. */
  function PointId(epoch: nat, index: nat): nat {
    epoch * 1000 + index
  }

  /**
   Two batches share no point id exactly if the earlier one has at most a thousand chunks
   for each millisecond between them.
   */
  lemma PointIdsAreDisjointIff(epoch: nat, later: nat, count: nat, laterCount: nat)
    requires epoch < later && laterCount > 0
    ensures (forall i, j :: 0 <= i < count && 0 <= j < laterCount ==> PointId(epoch, i) != PointId(later, j)) <==>
            count <= 1000 * (later - epoch)
  {
    if count > 1000 * (later - epoch) {
      assert PointId(epoch, 1000 * (later - epoch)) == PointId(later, 0);
    }
  }
}
