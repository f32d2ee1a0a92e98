/** The relative-time label of a news item: "just now", then whole minutes, hours or days
    since the article's timestamp. The current time is a parameter (milliseconds since the
    epoch, as the clock reports it); the timestamp is in seconds. */
module NewsFeed {
  import opened Outcomes

  /** How old an article is, at the granularity shown. */
  datatype Age = JustNow | Minutes(count: nat) | Hours(count: nat) | Days(count: nat)

  /** Whole seconds elapsed, rounded down; negative for a timestamp in the future. */
  function ElapsedSeconds(nowMs: int, timestamp: real): (s: int)
    ensures s as real <= nowMs as real / 1000.0 - timestamp < s as real + 1.0
  {
    (nowMs as real / 1000.0 - timestamp).Floor
  }

  /** The bucket of an elapsed time: under a minute (including the future) is "just now";
      otherwise the count of whole minutes below an hour, hours below a day, else days. */
  function Bucket(seconds: int): (a: Age)
    ensures seconds < 60 <==> a == JustNow
    ensures a.Minutes? <==> 60 <= seconds < 3600
    ensures a.Hours? <==> 3600 <= seconds < 86400
    ensures a.Days? <==> 86400 <= seconds
    ensures a.Minutes? ==> 1 <= a.count <= 59 && a.count * 60 <= seconds < (a.count + 1) * 60
    ensures a.Hours? ==> 1 <= a.count <= 23 && a.count * 3600 <= seconds < (a.count + 1) * 3600
    ensures a.Days? ==> 1 <= a.count && a.count * 86400 <= seconds < (a.count + 1) * 86400
  {
    if seconds < 60 then JustNow
    else if seconds < 3600 then Minutes(seconds / 60)
    else if seconds < 86400 then Hours(seconds / 3600)
    else Days(seconds / 86400)
  }

  /** Coarser buckets rank higher. */
  function Rank(a: Age): nat
  {
    match a
    case JustNow => 0
    case Minutes(_) => 1
    case Hours(_) => 2
    case Days(_) => 3
  }

  /** An older article never gets a finer unit, nor a smaller count in the same unit. */
  lemma BucketMonotone(s1: int, s2: int)
    requires s1 <= s2
    ensures Rank(Bucket(s1)) <= Rank(Bucket(s2))
    ensures Rank(Bucket(s1)) == Rank(Bucket(s2)) && !Bucket(s1).JustNow? ==>
      Bucket(s1).count <= Bucket(s2).count
  {
  }

  /** One decimal digit. */
  function DigitChar(d: nat): (c: char)
    requires d < 10
    ensures '0' <= c <= '9'
  {
    ('0' as int + d) as char
  }

  /** A natural number in decimal, without leading zeros. */
  function NatToString(n: nat): (s: string)
    ensures |s| > 0 && forall i | 0 <= i < |s| :: '0' <= s[i] <= '9'
    ensures n > 0 ==> s[0] != '0'
    ensures |s| == 1 <==> n < 10
  {
    if n < 10 then [DigitChar(n)] else NatToString(n / 10) + [DigitChar(n % 10)]
  }

  /** A number as it is printed: decimal digits, no leading zero except for 0 itself. */
  predicate IsDigits(s: string)
  {
    && |s| > 0
    && (forall i | 0 <= i < |s| :: '0' <= s[i] <= '9')
    && (|s| == 1 || s[0] != '0')
  }

  /** The value of a run of decimal digits. */
  function DigitsValue(s: string): nat
    requires forall i | 0 <= i < |s| :: '0' <= s[i] <= '9'
  {
    if |s| == 0 then 0
    else DigitsValue(s[..|s| - 1]) * 10 + (s[|s| - 1] as int - '0' as int)
  }

  /** Reading back a rendered number gives the number. */
  lemma {:induction false} DigitsValueOfNatToString(n: nat)
    ensures DigitsValue(NatToString(n)) == n
  {
    var s := NatToString(n);
    if n >= 10 {
      DigitsValueOfNatToString(n / 10);
      assert s[..|s| - 1] == NatToString(n / 10);
    }
  }

  /** Digits that do not start with 0 have a positive value. */
  lemma {:induction false} DigitsValuePositive(s: string)
    requires |s| > 0 && (forall i | 0 <= i < |s| :: '0' <= s[i] <= '9') && s[0] != '0'
    ensures DigitsValue(s) > 0
  {
    if |s| > 1 {
      DigitsValuePositive(s[..|s| - 1]);
    }
  }

  /** Printing the value of a printed number gives the same text back. */
  lemma {:induction false} NatToStringOfDigitsValue(s: string)
    requires IsDigits(s)
    ensures NatToString(DigitsValue(s)) == s
  {
    var t, c := s[..|s| - 1], s[|s| - 1];
    var d := c as int - '0' as int;
    assert DigitChar(d) == c;
    if |s| > 1 {
      assert t[0] == s[0] != '0';
      DigitsValuePositive(t);
      NatToStringOfDigitsValue(t);
      var n := DigitsValue(s);
      assert n == DigitsValue(t) * 10 + d;
      assert n / 10 == DigitsValue(t) && n % 10 == d;
      assert s == t + [c];
    }
  }

  /** The label shown for a bucket. */
  function Render(a: Age): string
  {
    match a
    case JustNow => "just now"
    case Minutes(n) => NatToString(n) + "m ago"
    case Hours(n) => NatToString(n) + "h ago"
    case Days(n) => NatToString(n) + "d ago"
  }

  /** The label of an article with timestamp `timestamp` (seconds) at time `nowMs`. */
  function TimeAgo(nowMs: int, timestamp: real): (shown: string)
    ensures ParseLabel(shown) == Some(Bucket(ElapsedSeconds(nowMs, timestamp)))
    ensures forall x | ParseLabel(x) == Some(Bucket(ElapsedSeconds(nowMs, timestamp))) :: x == shown
  {
    var a := Bucket(ElapsedSeconds(nowMs, timestamp));
    ParseRender(a);
    LabelUnique(a);
    Render(a)
  }

  /** Read a label back into its bucket; None for anything that is not a label. */
  function ParseLabel(s: string): Option<Age>
  {
    if s == "just now" then Some(JustNow)
    else if |s| < 6 || s[|s| - 4..] != " ago" then None
    else
      var digits, unit := s[..|s| - 5], s[|s| - 5];
      if !IsDigits(digits) then None
      else if unit == 'm' then Some(Minutes(DigitsValue(digits)))
      else if unit == 'h' then Some(Hours(DigitsValue(digits)))
      else if unit == 'd' then Some(Days(DigitsValue(digits)))
      else None
  }

  /** Every label reads back as the bucket it came from, so distinct buckets show distinct
      labels. */
  lemma ParseRender(a: Age)
    ensures ParseLabel(Render(a)) == Some(a)
  {
    match a
    case JustNow =>
    case Minutes(n) =>
      assert Render(a) == NatToString(n) + ['m'] + " ago";
      ParseCounted(n, 'm');
    case Hours(n) =>
      assert Render(a) == NatToString(n) + ['h'] + " ago";
      ParseCounted(n, 'h');
    case Days(n) =>
      assert Render(a) == NatToString(n) + ['d'] + " ago";
      ParseCounted(n, 'd');
  }

  /** A count followed by a unit letter and " ago" reads back as that count in that unit. */
  lemma ParseCounted(n: nat, unit: char)
    requires unit == 'm' || unit == 'h' || unit == 'd'
    ensures ParseLabel(NatToString(n) + [unit] + " ago")
      == Some(if unit == 'm' then Minutes(n) else if unit == 'h' then Hours(n) else Days(n))
  {
    var digits := NatToString(n);
    var s := digits + [unit] + " ago";
    assert s[|s| - 4..] == " ago";
    assert s[..|s| - 5] == digits;
    assert s[|s| - 5] == unit;
    assert s[|s| - 1] == 'o' && "just now"[7] == 'w';
    DigitsValueOfNatToString(n);
  }

  /** The bucket of a count in the unit named by a letter. */
  function Counted(unit: char, n: nat): Age
  {
    if unit == 'm' then Minutes(n) else if unit == 'h' then Hours(n) else Days(n)
  }

  /** A text other than "just now" that reads back as a bucket is a canonical count, a unit
      letter and " ago", and reads back as that count in that unit. */
  lemma ParsedShape(x: string)
    requires x != "just now" && ParseLabel(x).Some?
    ensures |x| >= 6 && IsDigits(x[..|x| - 5])
    ensures x[|x| - 5] == 'm' || x[|x| - 5] == 'h' || x[|x| - 5] == 'd'
    ensures x == x[..|x| - 5] + [x[|x| - 5]] + " ago"
    ensures ParseLabel(x) == Some(Counted(x[|x| - 5], DigitsValue(x[..|x| - 5])))
  {
    assert x[|x| - 4..] == " ago";
    SplitLabel(x);
  }

  /** A text of at least five characters is its count, its unit letter and its last four. */
  lemma SplitLabel(x: string)
    requires |x| >= 5
    ensures x == x[..|x| - 5] + [x[|x| - 5]] + x[|x| - 4..]
  {
  }

  /** The label of a counted bucket is the count, the unit letter and " ago". */
  lemma RenderCounted(unit: char, n: nat)
    requires unit == 'm' || unit == 'h' || unit == 'd'
    ensures Render(Counted(unit, n)) == NatToString(n) + [unit] + " ago"
  {
  }

  /** Only the printed label of a bucket reads back as that bucket: no other text (a count
      with a leading zero, say) does. */
  lemma RenderOfParse(x: string, a: Age)
    requires ParseLabel(x) == Some(a)
    ensures x == Render(a)
  {
    if x != "just now" {
      ParsedShape(x);
      var digits, unit := x[..|x| - 5], x[|x| - 5];
      NatToStringOfDigitsValue(digits);
      RenderCounted(unit, DigitsValue(digits));
    }
  }

  /** Every text that reads back as a bucket is that bucket's printed label. */
  lemma LabelUnique(a: Age)
    ensures forall x | ParseLabel(x) == Some(a) :: x == Render(a)
  {
    forall x | ParseLabel(x) == Some(a)
      ensures x == Render(a)
    {
      RenderOfParse(x, a);
    }
  }

  /** The label of an article is "just now" exactly when under a minute has passed. */
  lemma TimeAgoJustNow(nowMs: int, timestamp: real)
    ensures TimeAgo(nowMs, timestamp) == "just now" <==> ElapsedSeconds(nowMs, timestamp) < 60
  {
    var a := Bucket(ElapsedSeconds(nowMs, timestamp));
    ParseRender(a);
  }
}
