/** Collision-free names for shared outbound files: `report.pdf`, `report (1).pdf`, ... */
module SharedOutboundBasename {
  import opened Wrappers

  const MAX_INDEX := 10_000

  predicate IsDigit(c: char) { '0' <= c <= '9' }

  predicate AllDigits(s: string) {
    forall i :: 0 <= i < |s| ==> IsDigit(s[i])
  }

  function Decimal(n: nat): (s: string)
    ensures s != "" && AllDigits(s)
  {
    var digit := ['0' + (n % 10) as char];
    if n < 10 then digit else Decimal(n / 10) + digit
  }

  function Number(digits: string): nat
    requires AllDigits(digits)
  {
    if digits == "" then 0
    else 10 * Number(digits[..|digits| - 1]) + (digits[|digits| - 1] - '0') as nat
  }

  lemma {:induction false} NumberOfDecimal(n: nat)
    ensures Number(Decimal(n)) == n
  {
    var digit := ['0' + (n % 10) as char];
    if n < 10 {
      assert Decimal(n)[..0] == "";
    } else {
      NumberOfDecimal(n / 10);
      assert Decimal(n)[..|Decimal(n)| - 1] == Decimal(n / 10);
    }
  }

  // ---------------------------------------------------------------- taking a name apart

  predicate IsLineTerminator(c: char) {
    c == '\n' || c == '\r' || c == '\U{2028}' || c == '\U{2029}'
  }

  function LastIndexOf(c: char, s: string): (i: Option<nat>)
    ensures i.None? ==> c !in s
    ensures i.Some? ==> i.value < |s| && s[i.value] == c && c !in s[i.value + 1..]
  {
    if s == "" then None
    else if s[|s| - 1] == c then Some(|s| - 1)
    else
      var i := LastIndexOf(c, s[..|s| - 1]);
      assert i.Some? ==> s[i.value + 1..] == s[..|s| - 1][i.value + 1..] + [s[|s| - 1]];
      i
  }

  /** The name up to its last dot, unless that is its first character. */
  function Stem(basename: string): string {
    match LastIndexOf('.', basename)
    case Some(i) => if i > 0 then basename[..i] else basename
    case None => basename
  }

  function Extension(basename: string): string {
    basename[|Stem(basename)|..]
  }

  /** Length of the run of digits at the end of `s`. */
  function DigitRun(s: string): (n: nat)
    ensures n <= |s| && AllDigits(s[|s| - n..])
    ensures n < |s| ==> !IsDigit(s[|s| - n - 1])
  {
    if s != "" && IsDigit(s[|s| - 1]) then
      var n := DigitRun(s[..|s| - 1]);
      assert s[|s| - n - 1..] == s[..|s| - 1][|s| - 1 - n..] + [s[|s| - 1]];
      1 + n
    else 0
  }

  /** What `^(.*) \((\d+)\)$` means: a base without line terminators, then ` (digits)`. */
  predicate Suffixed(stem: string, base: string, digits: string) {
    && stem == base + " (" + digits + ")" && digits != "" && AllDigits(digits)
    && forall i :: 0 <= i < |base| ==> !IsLineTerminator(base[i])
  }

  /** The regular-expression match, found by scanning back over the digits. */
  function SuffixMatch(stem: string): (m: Option<(string, string)>)
    ensures m.Some? ==> Suffixed(stem, m.value.0, m.value.1)
    ensures m.None? ==> forall base, digits :: !Suffixed(stem, base, digits)
  {
    if stem == "" || stem[|stem| - 1] != ')' then
      SuffixesEndInBracket(stem);
      None
    else
      var inner := stem[..|stem| - 1];
      var n := DigitRun(inner);
      var head := inner[..|inner| - n];
      var digits := inner[|inner| - n..];
      SuffixIsUnique(stem, head, digits);
      if n == 0 || |head| < 2 || head[|head| - 2..] != " (" then None
      else
        var base := head[..|head| - 2];
        assert stem == base + " (" + digits + ")";
        if exists i :: 0 <= i < |base| && IsLineTerminator(base[i]) then None else Some((base, digits))
  }

  lemma SuffixesEndInBracket(stem: string)
    ensures forall base, digits :: Suffixed(stem, base, digits) ==> stem != "" && stem[|stem| - 1] == ')'
  {
  }

  /** The digits of a suffix are the whole run before the closing bracket. */
  lemma SuffixIsUnique(stem: string, head: string, digits: string)
    requires stem == head + digits + ")" && AllDigits(digits) && (head != "" ==> !IsDigit(head[|head| - 1]))
    ensures forall b, d :: Suffixed(stem, b, d) ==> d == digits && head == b + " ("
  {
    forall b, d | Suffixed(stem, b, d) ensures d == digits && head == b + " (" {
      var left := b + " (";
      assert stem == left + d + ")";
      assert left[|left| - 1] == '(';
      SplitAtDigits(head, digits, left, d);
    }
  }

  lemma SplitAtDigits(a: string, x: string, b: string, y: string)
    requires a + x == b + y || a + x + ")" == b + y + ")"
    requires AllDigits(x) && AllDigits(y)
    requires (a != "" ==> !IsDigit(a[|a| - 1])) && (b != "" ==> !IsDigit(b[|b| - 1]))
    ensures a == b && x == y
  {
    assert (a + x + ")")[..|a + x|] == a + x && (b + y + ")")[..|b + y|] == b + y;
    var s := a + x;
    assert s == b + y;
    assert forall i :: |a| <= i < |s| ==> s[i] == x[i - |a|];
    assert forall i :: |b| <= i < |s| ==> s[i] == y[i - |b|];
    assert a != "" ==> s[|a| - 1] == a[|a| - 1];
    assert b != "" ==> s[|b| - 1] == b[|b| - 1];
    assert a == s[..|a|] && b == s[..|b|] && x == s[|a|..] && y == s[|b|..];
  }

  // ---------------------------------------------------------------- choosing a name

  function BaseStem(basename: string): string {
    match SuffixMatch(Stem(basename))
    case Some(m) => m.0
    case None => Stem(basename)
  }

  function StartIndex(basename: string): nat {
    match SuffixMatch(Stem(basename))
    case Some(m) => Number(m.1) + 1
    case None => 1
  }

  function Candidate(basename: string, index: nat): string {
    BaseStem(basename) + " (" + Decimal(index) + ")" + Extension(basename)
  }

  predicate Taken(basename: string, existing: set<string>, i: nat) {
    Candidate(basename, i) in existing
  }

  /** No index from the start index up to `end` is free. */
  predicate AllTaken(basename: string, existing: set<string>, end: nat) {
    forall i :: StartIndex(basename) <= i < end ==> Taken(basename, existing, i)
  }

  /** The name to use: the name itself when it is free, else the first free candidate from the start
      index on, else one made from the clock reading `now`. */
  function Resolved(basename: string, existing: set<string>, now: nat): string {
    if basename !in existing then basename else FirstFree(basename, existing, StartIndex(basename), now)
  }

  function FirstFree(basename: string, existing: set<string>, index: nat, now: nat): string
    decreases MAX_INDEX - index
  {
    if index >= MAX_INDEX then Candidate(basename, now)
    else if !Taken(basename, existing, index) then Candidate(basename, index)
    else FirstFree(basename, existing, index + 1, now)
  }

  method ResolveMacOsCollisionBasename(basename: string, existing: set<string>, now: nat) returns (name: string)
    ensures name == Resolved(basename, existing, now)
  {
    if basename !in existing {
      return basename;
    }
    var index := StartIndex(basename);
    while index < MAX_INDEX
      invariant FirstFree(basename, existing, index, now) == FirstFree(basename, existing, StartIndex(basename), now)
    {
      var candidate := Candidate(basename, index);
      if candidate !in existing {
        return candidate;
      }
      index := index + 1;
    }
    return Candidate(basename, now);
  }

  // ---------------------------------------------------------------- what the choice means

  /** `name` is the candidate with the least free index at or above the start index. */
  ghost predicate LeastFree(basename: string, existing: set<string>, name: string) {
    exists k :: StartIndex(basename) <= k < MAX_INDEX && !Taken(basename, existing, k)
                && AllTaken(basename, existing, k) && name == Candidate(basename, k)
  }

  lemma {:induction false} FirstFreeIsLeast(basename: string, existing: set<string>, index: nat, now: nat)
    requires StartIndex(basename) <= index && AllTaken(basename, existing, index)
    ensures !AllTaken(basename, existing, MAX_INDEX) ==> LeastFree(basename, existing, FirstFree(basename, existing, index, now))
    ensures AllTaken(basename, existing, MAX_INDEX) ==> FirstFree(basename, existing, index, now) == Candidate(basename, now)
    decreases MAX_INDEX - index
  {
    if index < MAX_INDEX && Taken(basename, existing, index) {
      FirstFreeIsLeast(basename, existing, index + 1, now);
    }
  }

  /** The result is the name itself, the least free candidate, or the last resort; and it collides
      exactly when the last resort is reached and is itself in use. */
  lemma ResolvedIsLeastFree(basename: string, existing: set<string>, now: nat)
    ensures var name := Resolved(basename, existing, now);
      && (basename !in existing ==> name == basename)
      && (basename in existing && !AllTaken(basename, existing, MAX_INDEX) ==> LeastFree(basename, existing, name))
      && (name in existing <==> basename in existing && AllTaken(basename, existing, MAX_INDEX) && Candidate(basename, now) in existing)
  {
    FirstFreeIsLeast(basename, existing, StartIndex(basename), now);
  }

  lemma NameWithLastIndex()
    ensures Stem("a (9999).pdf") == "a (9999)" && Extension("a (9999).pdf") == ".pdf"
    ensures SuffixMatch("a (9999)") == Some(("a", "9999"))
  {
    var name := "a (9999).pdf";
    assert name[8] == '.' && name[..8] == "a (9999)" && name[8..] == ".pdf";
    assert LastIndexOf('.', name) == Some(8);
    assert Suffixed("a (9999)", "a", "9999");
    SuffixIsUnique("a (9999)", "a (", "9999");
    var m := SuffixMatch("a (9999)").value;
    assert m.0 == (m.0 + " (")[..|m.0|] == ("a (")[..1] == "a";
  }

  /** The last resort does collide: no index is left above 9999, so the next upload of this name gets
      the name made from the clock, and one more in the same millisecond gets it again. */
  lemma LastResortCollides(now: nat)
    ensures var name := "a (9999).pdf"; var existing := {name, "a (" + Decimal(now) + ").pdf"};
      && StartIndex(name) == MAX_INDEX && AllTaken(name, existing, MAX_INDEX)
      && Resolved(name, existing, now) == "a (" + Decimal(now) + ").pdf" && Resolved(name, existing, now) in existing
  {
    NameWithLastIndex();
    NumberOf9999();
    assert Candidate("a (9999).pdf", now) == "a" + " (" + Decimal(now) + ")" + ".pdf" == "a (" + Decimal(now) + ").pdf";
  }

  lemma NumberOf9999()
    ensures Number("9999") == 9999
  {
    assert "9999"[..3] == "999" && "999"[..2] == "99" && "99"[..1] == "9" && "9"[..0] == "";
    assert Number("9") == 9 && Number("99") == 99 && Number("999") == 999;
  }

  // ---------------------------------------------------------------- which names are tried

  lemma {:induction false} LastIndexIs(c: char, s: string, i: nat)
    requires i < |s| && s[i] == c && c !in s[i + 1..]
    ensures LastIndexOf(c, s) == Some(i)
  {
    var n := |s| - 1;
    if i < n {
      assert s[i + 1..][n - i - 1] == s[n];
      assert s[..n][i + 1..] == s[i + 1..][..n - i - 1];
      LastIndexIs(c, s[..n], i);
    }
  }

  /** The extension begins at the last dot, unless that is the first character. */
  lemma ExtensionBeginsAtLastDot(stem: string, ext: string)
    requires '.' !in ext
    ensures stem != "" ==> Stem(stem + "." + ext) == stem && Extension(stem + "." + ext) == "." + ext
    ensures stem == "" ==> Stem(stem + "." + ext) == "." + ext && Extension(stem + "." + ext) == ""
    ensures Stem(ext) == ext && Extension(ext) == ""
  {
    var name := stem + "." + ext;
    assert name[|stem|] == '.' && name[|stem| + 1..] == ext && name[..|stem|] == stem && name[|stem|..] == "." + ext;
    LastIndexIs('.', name, |stem|);
    assert stem == "" ==> name == "." + ext;
  }

  /** A stem without a number is numbered from 1 on. */
  lemma UnnumberedStartsAtOne(basename: string, index: nat)
    requires forall base, digits :: !Suffixed(Stem(basename), base, digits)
    ensures StartIndex(basename) == 1
    ensures Candidate(basename, index) == Stem(basename) + " (" + Decimal(index) + ")" + Extension(basename)
  {
    assert SuffixMatch(Stem(basename)).None?;
  }

  /** A stem that ends in a number goes on behind it. */
  lemma NumberedGoesOn(basename: string, base: string, digits: string, index: nat)
    requires Suffixed(Stem(basename), base, digits)
    ensures StartIndex(basename) == Number(digits) + 1
    ensures Candidate(basename, index) == base + " (" + Decimal(index) + ")" + Extension(basename)
  {
    var m := SuffixMatch(Stem(basename)).value;
    SuffixIsUnique(Stem(basename), base + " (", digits);
    assert m.1 == digits && m.0 + " (" == base + " (";
    assert m.0 == (m.0 + " (")[..|m.0|] && base == (base + " (")[..|base|];
  }

  lemma SomeNumbers()
    ensures Decimal(1) == "1" && Decimal(120) == "120" && Number("119") == 119
  {
    assert Decimal(1) == "1" && Decimal(12) == "1" + "2" == "12" && Decimal(120) == "12" + "0" == "120";
    assert "119"[..2] == "11" && "11"[..1] == "1" && "1"[..0] == "";
    assert Number("1") == 1 && Number("11") == 11;
  }

  lemma FirstCandidateIsFree(basename: string, existing: set<string>, now: nat)
    requires basename in existing && StartIndex(basename) < MAX_INDEX && !Taken(basename, existing, StartIndex(basename))
    ensures Resolved(basename, existing, now) == Candidate(basename, StartIndex(basename))
  {
  }

  /** Like `report.pdf`, which is followed by `report (1).pdf`. */
  lemma FirstNumber(stem: string, ext: string, now: nat)
    requires stem != "" && '.' !in ext && forall base, digits :: !Suffixed(stem, base, digits)
    ensures Resolved(stem + "." + ext, {stem + "." + ext}, now) == stem + " (" + Decimal(1) + ")" + ("." + ext)
  {
    var name := stem + "." + ext;
    ExtensionBeginsAtLastDot(stem, ext);
    UnnumberedStartsAtOne(name, 1);
    assert |Candidate(name, 1)| > |name|;
    FirstCandidateIsFree(name, {name}, now);
  }

  lemma NumberedStem(base: string, n: nat)
    requires forall i :: 0 <= i < |base| ==> !IsLineTerminator(base[i])
    ensures Suffixed(base + " (" + Decimal(n) + ")", base, Decimal(n)) && Number(Decimal(n)) == n
  {
    NumberOfDecimal(n);
  }

  /** Like `report (1).pdf`, which is followed by `report (2).pdf`. */
  lemma NextNumber(base: string, n: nat, ext: string, now: nat)
    requires '.' !in ext && n + 1 < MAX_INDEX && forall i :: 0 <= i < |base| ==> !IsLineTerminator(base[i])
    ensures var name := base + " (" + Decimal(n) + ")" + "." + ext;
      Resolved(name, {name}, now) == base + " (" + Decimal(n + 1) + ")" + ("." + ext)
  {
    var stem := base + " (" + Decimal(n) + ")";
    var name := stem + "." + ext;
    NumberedStem(base, n);
    ExtensionBeginsAtLastDot(stem, ext);
    NumberedGoesOn(name, base, Decimal(n), n + 1);
    NumberedGoesOn(name, base, Decimal(n), n);
    SameWithDot(stem, ext);
    if Candidate(name, n + 1) == name { CandidatesAreDistinct(name, n, n + 1); }
    FirstCandidateIsFree(name, {name}, now);
  }

  lemma SameWithDot(stem: string, ext: string)
    ensures stem + "." + ext == stem + ("." + ext)
  {
  }

  lemma CandidatesAreDistinct(basename: string, i: nat, j: nat)
    requires Candidate(basename, i) == Candidate(basename, j)
    ensures i == j
  {
    var (a, b) := (BaseStem(basename) + " (", ")" + Extension(basename));
    assert a + Decimal(i) + b == a + Decimal(j) + b by {
      assert BaseStem(basename) + " (" + Decimal(i) + ")" + Extension(basename) == a + Decimal(i) + b;
      assert BaseStem(basename) + " (" + Decimal(j) + ")" + Extension(basename) == a + Decimal(j) + b;
    }
    assert |Decimal(i)| == |Decimal(j)|;
    assert Decimal(i) == (a + Decimal(i) + b)[|a|..|a| + |Decimal(i)|];
    assert Decimal(j) == (a + Decimal(j) + b)[|a|..|a| + |Decimal(j)|];
    NumberOfDecimal(i);
    NumberOfDecimal(j);
  }

  /** As many taken candidates need as many existing names. */
  lemma {:induction false} TakenNeedsNames(basename: string, existing: set<string>, n: nat, end: nat) returns (names: set<string>)
    requires n <= end && forall i :: n <= i < end ==> Taken(basename, existing, i)
    ensures names <= existing && |names| == end - n
    ensures forall s :: s in names ==> exists i :: n <= i < end && s == Candidate(basename, i)
    decreases end - n
  {
    if n == end {
      names := {};
    } else {
      names := TakenNeedsNames(basename, existing, n + 1, end);
      var c := Candidate(basename, n);
      if c in names {
        var i :| n + 1 <= i < end && c == Candidate(basename, i);
        CandidatesAreDistinct(basename, n, i);
      }
      assert Taken(basename, existing, n);
      names := names + {c};
    }
  }

  lemma SubsetIsSmaller(a: set<string>, b: set<string>)
    requires a <= b
    ensures |a| <= |b|
    decreases a
  {
    if a != {} {
      var x :| x in a;
      SubsetIsSmaller(a - {x}, b - {x});
    }
  }

  /** Pigeonhole: with fewer existing names than indices the last resort is never reached. */
  lemma FewNamesLeaveOneFree(basename: string, existing: set<string>, now: nat)
    requires |existing| + StartIndex(basename) < MAX_INDEX
    ensures !AllTaken(basename, existing, MAX_INDEX) && Resolved(basename, existing, now) !in existing
  {
    ResolvedIsLeastFree(basename, existing, now);
    if AllTaken(basename, existing, MAX_INDEX) {
      var names := TakenNeedsNames(basename, existing, StartIndex(basename), MAX_INDEX);
      SubsetIsSmaller(names, existing);
    }
  }

  // ---------------------------------------------------------------- repeated insertion

  /** Resolves each request in turn and adds the result to the names in use. */
  function Allocate(requests: seq<string>, existing: set<string>, clock: nat -> nat): seq<string> {
    if requests == [] then []
    else var earlier := Allocate(requests[..|requests| - 1], existing, clock);
      earlier + [Resolved(requests[|requests| - 1], existing + Names(earlier), clock(|earlier|))]
  }

  function Names(s: seq<string>): set<string> {
    set name | name in s
  }

  lemma {:induction false} NamesAreFew(s: seq<string>)
    ensures |Names(s)| <= |s|
  {
    if s != [] {
      var init, last := s[..|s| - 1], s[|s| - 1];
      NamesAreFew(init);
      assert s == init + [last];
      assert Names(s) == Names(init) + {last};
      SubsetIsSmaller(Names(init), Names(init) + {last});
    }
  }

  lemma UnionIsBounded(a: set<string>, b: set<string>)
    ensures |a + b| <= |a| + |b|
  {
    assert a + b == a + (b - a);
    SubsetIsSmaller(b - a, b);
  }

  /** Repeated insertion yields names that are new and pairwise distinct, as long as indices outnumber
      the names in use. */
  lemma {:induction false} AllocatedNamesAreDistinct(requests: seq<string>, existing: set<string>, clock: nat -> nat)
    requires forall r :: r in requests ==> |existing| + |requests| + StartIndex(r) <= MAX_INDEX
    ensures |Allocate(requests, existing, clock)| == |requests|
    ensures forall i :: 0 <= i < |requests| ==> Allocate(requests, existing, clock)[i] !in existing
    ensures forall i, j :: 0 <= i < j < |requests| ==> Allocate(requests, existing, clock)[i] != Allocate(requests, existing, clock)[j]
  {
    if requests != [] {
      var init := requests[..|requests| - 1];
      AllocatedNamesAreDistinct(init, existing, clock);
      var earlier := Allocate(init, existing, clock);
      NamesAreFew(earlier);
      UnionIsBounded(existing, Names(earlier));
      FewNamesLeaveOneFree(requests[|requests| - 1], existing + Names(earlier), clock(|earlier|));
    }
  }
}
