/** Small pure helpers: quarter arithmetic, date prefix, capitalisation,
    category labels and clamping. */
module Helpers {
  import opened Types
  import opened Strings
  import opened Seqs

  /** Math.floor(month / 3) + 1: the quarter a zero-based month belongs to. */
  function QuarterOfMonth(m: Month): (q: Quarter)
    ensures 3 * (q - 1) <= m < 3 * q
  {
    m / 3 + 1
  }

  /** Quarter q is made of exactly the months 3(q-1), 3(q-1)+1 and 3(q-1)+2. */
  lemma QuarterOfMonthIff(m: Month, q: Quarter)
    ensures QuarterOfMonth(m) == q <==> 3 * (q - 1) <= m <= 3 * (q - 1) + 2
  {
  }

  function GetQuarterFromDate(d: Date): (q: Quarter)
    ensures 3 * (q - 1) <= d.month < 3 * q
  {
    QuarterOfMonth(d.month)
  }

  /** The clock is read by the caller; today is a parameter. */
  function GetCurrentQuarter(today: Date): (q: Quarter)
    ensures q == GetQuarterFromDate(today)
  {
    QuarterOfMonth(today.month)
  }

  function GetCurrentYear(today: Date): int {
    today.year
  }

  /** date.toISOString().split('T')[0]: the part of the ISO timestamp before the first 'T'. */
  function ToISODate(iso: string): (r: string)
    ensures IsPrefix(r, iso)
    ensures 'T' !in r
    ensures |r| < |iso| ==> iso[|r|] == 'T'
  {
    SplitHead(iso, 'T');
    Split(iso, 'T')[0]
  }

  /** str.charAt(0).toUpperCase() + str.slice(1) */
  function Capitalize(s: string): (r: string)
    ensures |r| == |s|
    ensures s != [] ==> r[0] == UpperChar(s[0]) && r[1..] == s[1..]
  {
    if s == [] then [] else [UpperChar(s[0])] + s[1..]
  }

  lemma CapitalizeIdempotent(s: string)
    ensures Capitalize(Capitalize(s)) == Capitalize(s)
  {
  }

  /** cat.split('_').map(capitalize).join(' ') */
  function CategoryLabel(cat: string): string {
    Join(Map(Split(cat, '_'), Capitalize), " ")
  }

  /** The label has one space-separated word per '_'-separated part of the name,
      each capitalised. */
  lemma CategoryLabelWords(cat: string)
    requires ' ' !in cat
    ensures Split(CategoryLabel(cat), ' ') == Map(Split(cat, '_'), Capitalize)
  {
    var parts := Split(cat, '_');
    var words := Map(parts, Capitalize);
    forall i | 0 <= i < |words| ensures ' ' !in words[i] {
      assert forall c :: c in parts[i] ==> c in cat by {
        forall c | c in parts[i] ensures c in cat {
          SplitPieceChars(cat, '_', i, c);
        }
      }
    }
    SplitJoin(words, ' ');
  }

  lemma {:induction false} SplitPieceChars(s: string, sep: char, i: int, c: char)
    requires 0 <= i < |Split(s, sep)| && c in Split(s, sep)[i]
    ensures c in s
  {
    if s != [] {
      var rest := Split(s[1..], sep);
      if s[0] == sep {
        SplitPieceChars(s[1..], sep, i - 1, c);
      } else if i == 0 {
        if c != s[0] {
          SplitPieceChars(s[1..], sep, 0, c);
        }
      } else {
        SplitPieceChars(s[1..], sep, i, c);
      }
    }
  }

  /** Math.min(Math.max(num, min), max) */
  function Clamp(n: int, lo: int, hi: int): (r: int)
    ensures lo <= hi ==> lo <= r <= hi
    ensures lo <= n <= hi ==> r == n
    ensures r == n || r == lo || r == hi
    ensures lo <= hi && n < lo ==> r == lo
    ensures n > hi || lo > hi ==> r == hi
  {
    var m := if n > lo then n else lo;
    if m < hi then m else hi
  }
}
