/** internal/db/disks.go, NextDiskID: disc numbers counted per prefix, and how they are written. */
module DiskIds {
  datatype DiskId = DiskId(prefix: string, number: nat)

  // ---- Formatting ----------------------------------------------------------

  function Digit(d: nat): char
    requires d < 10
  {
    "0123456789"[d]
  }

  function Decimal(n: nat): (s: string)
    ensures s != "" && ':' !in s
    ensures Value(s) == n
  {
    if n < 10 then [Digit(n)] else Decimal(n / 10) + [Digit(n % 10)]
  }

  function DigitValue(c: char): nat {
    if '0' <= c <= '9' then (c - '0') as nat else 0
  }

  function Value(s: string): nat {
    if s == "" then 0 else 10 * Value(s[..|s| - 1]) + DigitValue(s[|s| - 1])
  }

  /** The `%04d` verb: zeros on the left up to four characters, more if the number is longer. */
  function Padded(s: string): (r: string)
    ensures |r| >= 4 && |r| >= |s|
    decreases 4 - |s|
  {
    if |s| >= 4 then s else Padded("0" + s)
  }

  /** The `%s:%04d` format. */
  function Text(id: DiskId): string {
    id.prefix + ":" + Padded(Decimal(id.number))
  }

  lemma {:induction false} ValueLeadingZero(s: string)
    ensures Value("0" + s) == Value(s)
  {
    if s == "" {
      assert ("0" + s)[..0] == "";
    } else {
      ValueLeadingZero(s[..|s| - 1]);
      assert ("0" + s)[..|s|] == "0" + s[..|s| - 1];
    }
  }

  lemma {:induction false} PaddedValue(s: string)
    requires ':' !in s
    ensures Value(Padded(s)) == Value(s) && ':' !in Padded(s)
    decreases 4 - |s|
  {
    if |s| < 4 {
      ValueLeadingZero(s);
      PaddedValue("0" + s);
    }
  }

  lemma OneColonFrom(a: string, b: string, i: int)
    requires ':' !in b
    ensures |a| < i < |a + ":" + b| ==> (a + ":" + b)[i] != ':'
  {
    if |a| < i < |a + ":" + b| {
      assert (a + ":" + b)[i] == b[i - |a| - 1];
    }
  }

  /** What follows the last colon, and what precedes it, are both determined by the whole. */
  lemma SplitAtLastColon(a: string, b: string, c: string, d: string)
    requires ':' !in b && ':' !in d
    requires a + ":" + b == c + ":" + d
    ensures a == c && b == d
  {
    var s := a + ":" + b;
    OneColonFrom(a, b, |c|);
    OneColonFrom(c, d, |a|);
    assert s[|a|] == ':' && (c + ":" + d)[|c|] == ':';
    assert a == s[..|a|] && c == s[..|c|];
    assert b == s[|a| + 1..] && d == s[|c| + 1..];
  }

  /** Distinct discs have distinct labels, however long the number and whatever the prefix. */
  lemma TextInjective(a: DiskId, b: DiskId)
    requires Text(a) == Text(b)
    ensures a == b
  {
    PaddedValue(Decimal(a.number));
    PaddedValue(Decimal(b.number));
    SplitAtLastColon(a.prefix, Padded(Decimal(a.number)), b.prefix, Padded(Decimal(b.number)));
  }

  lemma {:induction false} PaddedIsZeros(s: string)
    ensures Padded(s) == seq(if |s| < 4 then 4 - |s| else 0, _ => '0') + s
    decreases 4 - |s|
  {
    if |s| < 4 {
      PaddedIsZeros("0" + s);
      assert seq(4 - |s|, _ => '0') == seq(4 - |s| - 1, _ => '0') + "0";
    }
  }

  lemma {:induction false} NoLeadingZero(n: nat)
    requires n > 0
    ensures Decimal(n)[0] != '0'
  {
    if n >= 10 {
      NoLeadingZero(n / 10);
    }
  }

  /** A label is the prefix, a colon, and the number in decimal, with zeros in front up to four characters. */
  lemma LabelFormat(id: DiskId)
    requires id.number > 0
    ensures var d := Decimal(id.number);
            && Text(id) == id.prefix + ":" + (seq(if |d| < 4 then 4 - |d| else 0, _ => '0') + d)
            && Value(d) == id.number && d[0] != '0'
  {
    PaddedIsZeros(Decimal(id.number));
    NoLeadingZero(id.number);
  }

  /** All ten digits, and both sides of four places. */
  lemma LabelExamples()
    ensures Text(DiskId("BD", 7)) == "BD:0007" && Text(DiskId("BD", 42)) == "BD:0042"
    ensures Text(DiskId("BD", 1234)) == "BD:1234" && Text(DiskId("BD", 56789)) == "BD:56789"
    ensures Text(DiskId("BD", 10)) == "BD:0010"
  {
    Numerals();
    hide Value;
    hide Padded;
    hide Decimal;
    FourPlaces("7", "007");
    FourPlaces("42", "042");
    FourPlaces("10", "010");
    FivePlaces("1234");
    FivePlaces("56789");
  }

  lemma Numerals()
    ensures Decimal(7) == "7" && Decimal(42) == "42" && Decimal(10) == "10"
    ensures Decimal(1234) == "1234" && Decimal(56789) == "56789"
  {
    hide Value;
    hide Decimal;
    OneDigit(1);
    OneDigit(4);
    OneDigit(5);
    OneDigit(7);
    Appended(1, 0);
    Appended(1, 2);
    Appended(12, 3);
    Appended(123, 4);
    Appended(4, 2);
    Appended(5, 6);
    Appended(56, 7);
    Appended(567, 8);
    Appended(5678, 9);
  }

  lemma OneDigit(d: nat)
    requires d < 10
    ensures Decimal(d) == ["0123456789"[d]]
  {
  }

  lemma Appended(n: nat, d: nat)
    requires n > 0 && d < 10
    ensures Decimal(10 * n + d) == Decimal(n) + ["0123456789"[d]]
  {
    assert (10 * n + d) / 10 == n && (10 * n + d) % 10 == d;
  }

  lemma FivePlaces(s: string)
    requires |s| >= 4
    ensures Padded(s) == s
  {
  }

  lemma FourPlaces(s: string, three: string)
    requires 1 <= |s| <= 3 && |three| == 3
    requires three == if |s| == 1 then "00" + s else if |s| == 2 then "0" + s else s
    ensures Padded(s) == "0" + three
  {
    assert Padded(three) == Padded("0" + three) == "0" + three;
    if |s| == 1 {
      assert Padded(s) == Padded("0" + s) && "0" + ("0" + s) == three;
    }
  }

  // ---- Counting ------------------------------------------------------------

  /** The rows that `id LIKE prefix || ':%'` selects. */
  function Counted(ids: set<DiskId>, prefix: string): set<DiskId> {
    set id | id in ids && prefix + ":" <= Text(id)
  }

  function NextDiskID(ids: set<DiskId>, prefix: string, alreadyAllocated: nat): DiskId {
    DiskId(prefix, |Counted(ids, prefix)| + alreadyAllocated + 1)
  }

  lemma OwnPrefixIsCounted(id: DiskId)
    ensures id.prefix + ":" <= Text(id)
  {
  }

  /** Between prefixes without a colon, the query counts exactly the discs of that prefix. */
  lemma CountedIsOwnPrefix(id: DiskId, prefix: string)
    requires ':' !in prefix && ':' !in id.prefix
    ensures prefix + ":" <= Text(id) <==> id.prefix == prefix
  {
    var tail := Padded(Decimal(id.number));
    PaddedValue(Decimal(id.number));
    OneColonFrom(id.prefix, tail, |prefix|);
    if prefix + ":" <= Text(id) {
      assert Text(id)[|prefix|] == ':';
      assert id.prefix == Text(id)[..|id.prefix|];
      assert prefix == Text(id)[..|prefix|];
    }
  }

  /** Adding one disc of the prefix raises its count by one; no addition lowers any count. */
  lemma CountAfterInsert(ids: set<DiskId>, id: DiskId, prefix: string)
    requires id !in ids
    ensures |Counted(ids, prefix)| <= |Counted(ids + {id}, prefix)|
    ensures id.prefix == prefix ==> |Counted(ids + {id}, prefix)| == |Counted(ids, prefix)| + 1
  {
    if prefix + ":" <= Text(id) {
      assert Counted(ids + {id}, prefix) == Counted(ids, prefix) + {id};
    } else {
      assert Counted(ids + {id}, prefix) == Counted(ids, prefix);
    }
  }

  // ---- Freshness -----------------------------------------------------------

  ghost predicate Catalogued(ids: set<DiskId>) {
    forall id <- ids :: ':' !in id.prefix && id.number > 0
  }

  function UpTo(prefix: string, n: nat): (s: set<DiskId>)
    ensures |s| == n
    ensures forall id :: id in s <==> id.prefix == prefix && 1 <= id.number <= n
  {
    if n == 0 then {} else UpTo(prefix, n - 1) + {DiskId(prefix, n)}
  }

  lemma {:induction false} SubsetSize<T>(a: set<T>, b: set<T>)
    requires a <= b && |a| >= |b|
    ensures a == b
    decreases |a|
  {
    if a != b {
      var x :| x in b && x !in a;
      SubsetFits(a, b - {x});
      assert false;
    }
  }

  lemma {:induction false} SubsetFits<T>(a: set<T>, b: set<T>)
    requires a <= b
    ensures |a| <= |b|
  {
    if a != {} {
      var x :| x in a;
      SubsetFits(a - {x}, b - {x});
    }
  }

  lemma ProposedLater(ids: set<DiskId>, id: DiskId)
    requires id.number > |Counted(ids, id.prefix)|
    ensures exists k: nat :: NextDiskID(ids, id.prefix, k) == id
  {
    assert NextDiskID(ids, id.prefix, id.number - |Counted(ids, id.prefix)| - 1) == id;
  }

  /**
   * NextDiskID never proposes a disc that is already catalogued, however many it is
   * asked for, exactly when the catalogued numbers of the prefix have no gap.
   */
  lemma NextIdsFreshIff(ids: set<DiskId>, prefix: string)
    requires Catalogued(ids) && ':' !in prefix
    ensures (forall k: nat :: NextDiskID(ids, prefix, k) !in ids)
      <==> Counted(ids, prefix) == UpTo(prefix, |Counted(ids, prefix)|)
  {
    var own := Counted(ids, prefix);
    var n := |own|;
    forall id | id in ids
      ensures id in own <==> id.prefix == prefix
    {
      CountedIsOwnPrefix(id, prefix);
    }
    if forall k: nat :: NextDiskID(ids, prefix, k) !in ids {
      forall id | id in own
        ensures id in UpTo(prefix, n)
      {
        if id.number > n {
          ProposedLater(ids, id);
        }
      }
      SubsetSize(own, UpTo(prefix, n));
    } else {
      var k: nat :| NextDiskID(ids, prefix, k) in ids;
      assert NextDiskID(ids, prefix, k) in own;
    }
  }
}
