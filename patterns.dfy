/**
 * The regular expressions the forms test, written as predicates that follow
 * the expression left to right (one recursive call per `+` repetition), each
 * with a lemma describing the strings it accepts in plain terms.
 *
 *   LooseEmail   /\S+@\S+\.\S+/                  (unanchored)
 *   StrictEmail  /^[^\s@]+@[^\s@]+\.[^\s@]+$/
 *   LoosePhone   /^\+?[\d\s-()]+$/
 *   StrictPhone  /^(\+?\d{1,3}[- ]?)?\d{10}$/
 */
module Patterns {
  import opened Text

  predicate AllNotSpace(t: string) {
    forall k :: 0 <= k < |t| ==> NotSpace(t[k])
  }

  // ---------------------------------------------------------------------------
  // /\S+@\S+\.\S+/, tested anywhere in the string

  /** `\S+\.\S+` matching at the start of `s` (what follows is not constrained). */
  predicate LooseDomain(s: string)
    decreases |s|
  {
    |s| >= 3 && NotSpace(s[0]) && ((s[1] == '.' && NotSpace(s[2])) || LooseDomain(s[1..]))
  }

  /** `\S+@\S+\.\S+` matching at the start of `s`. */
  predicate LooseLocal(s: string)
    decreases |s|
  {
    |s| >= 2 && NotSpace(s[0]) && ((s[1] == '@' && LooseDomain(s[2..])) || LooseLocal(s[1..]))
  }

  /** `/\S+@\S+\.\S+/.test(s)`: a match starts at some position. */
  predicate LooseEmail(s: string)
    decreases |s|
  {
    s != [] && (LooseLocal(s) || LooseEmail(s[1..]))
  }

  /** The dot at `d` ends a non-blank run starting at 0 and is followed by a non-blank. */
  predicate DomainAt(t: string, d: int) {
    0 < d && d + 1 < |t| && AllNotSpace(t[..d]) && t[d] == '.' && NotSpace(t[d + 1])
  }

  /** The `@` at `p` ends a non-blank run starting at 0 and a domain follows it. */
  predicate LocalAt(t: string, p: int) {
    0 < p < |t| && AllNotSpace(t[..p]) && t[p] == '@' && LooseDomain(t[p + 1..])
  }

  /**
   * A non-blank character, `@` at `p`, a non-empty non-blank run, `.` at `d`
   * and a non-blank character, somewhere in `s`.
   */
  predicate LooseEmailAt(s: string, p: int, d: int) {
    0 < p && p + 1 < d && d + 1 < |s| && NotSpace(s[p - 1]) && s[p] == '@'
    && AllNotSpace(s[p + 1..d]) && s[d] == '.' && NotSpace(s[d + 1])
  }

  lemma {:induction false} DomainWitness(t: string) returns (d: int)
    requires LooseDomain(t)
    ensures DomainAt(t, d)
    decreases |t|
  {
    if t[1] == '.' && NotSpace(t[2]) {
      d := 1;
    } else {
      var d' := DomainWitness(t[1..]);
      d := d' + 1;
      assert t[..d] == [t[0]] + t[1..][..d'];
    }
  }

  lemma {:induction false} DomainFromWitness(t: string, d: int)
    requires DomainAt(t, d)
    ensures LooseDomain(t)
    decreases |t|
  {
    assert t[..d][0] == t[0];
    if d > 1 {
      assert t[1..][..d - 1] == t[..d][1..];
      DomainFromWitness(t[1..], d - 1);
    }
  }

  lemma {:induction false} LocalWitness(t: string) returns (p: int)
    requires LooseLocal(t)
    ensures LocalAt(t, p)
    decreases |t|
  {
    if t[1] == '@' && LooseDomain(t[2..]) {
      p := 1;
    } else {
      var p' := LocalWitness(t[1..]);
      p := p' + 1;
      assert t[..p] == [t[0]] + t[1..][..p'];
      assert t[p + 1..] == t[1..][p' + 1..];
    }
  }

  lemma {:induction false} LocalFromWitness(t: string, p: int)
    requires LocalAt(t, p)
    ensures LooseLocal(t)
    decreases |t|
  {
    assert t[..p][0] == t[0];
    if p > 1 {
      assert t[1..][..p - 1] == t[..p][1..];
      assert t[1..][p..] == t[p + 1..];
      LocalFromWitness(t[1..], p - 1);
    }
  }

  lemma {:induction false} SearchWitness(s: string) returns (a: int)
    requires LooseEmail(s)
    ensures 0 <= a < |s| && LooseLocal(s[a..])
    decreases |s|
  {
    if LooseLocal(s) {
      a := 0;
    } else {
      var a' := SearchWitness(s[1..]);
      a := a' + 1;
      assert s[1..][a'..] == s[a..];
    }
  }

  lemma {:induction false} SearchFromWitness(s: string, a: int)
    requires 0 <= a < |s| && LooseLocal(s[a..])
    ensures LooseEmail(s)
    decreases a
  {
    if a > 0 {
      assert s[1..][a - 1..] == s[a..];
      SearchFromWitness(s[1..], a - 1);
    }
  }

  /** The unanchored email test passes exactly the strings holding `x@y.z` with non-blank x, y, z. */
  lemma LooseEmailIff(s: string)
    ensures LooseEmail(s) <==> exists p, d :: LooseEmailAt(s, p, d)
  {
    if LooseEmail(s) {
      var a := SearchWitness(s);
      var t := s[a..];
      var p' := LocalWitness(t);
      var u := t[p' + 1..];
      var d' := DomainWitness(u);
      var p, d := a + p', a + p' + 1 + d';
      assert s[p - 1] == t[..p'][p' - 1];
      assert s[p + 1..d] == u[..d'];
      assert LooseEmailAt(s, p, d);
    }
    if exists p, d :: LooseEmailAt(s, p, d) {
      var p, d :| LooseEmailAt(s, p, d);
      var t := s[p - 1..];
      var u := s[p + 1..];
      assert u[..d - p - 1] == s[p + 1..d];
      DomainFromWitness(u, d - p - 1);
      assert t[2..] == u;
      assert t[..1] == [s[p - 1]];
      LocalFromWitness(t, 1);
      SearchFromWitness(s, p - 1);
    }
  }

  /** A string without `@` never passes. */
  lemma LooseEmailNeedsAt(s: string)
    requires forall k :: 0 <= k < |s| ==> s[k] != '@'
    ensures !LooseEmail(s)
  {
    LooseEmailIff(s);
  }

  // ---------------------------------------------------------------------------
  // /^[^\s@]+@[^\s@]+\.[^\s@]+$/

  /** `[^\s@]` */
  predicate Plain(c: char) {
    NotSpace(c) && c != '@'
  }

  predicate AllPlain(t: string) {
    forall k :: 0 <= k < |t| ==> Plain(t[k])
  }

  /** `[^\s@]+$` */
  predicate StrictTail(s: string)
    decreases |s|
  {
    s != [] && Plain(s[0]) && (|s| == 1 || StrictTail(s[1..]))
  }

  /** `[^\s@]+\.[^\s@]+$` */
  predicate StrictDomain(s: string)
    decreases |s|
  {
    |s| >= 3 && Plain(s[0]) && ((s[1] == '.' && StrictTail(s[2..])) || StrictDomain(s[1..]))
  }

  /** `^[^\s@]+@[^\s@]+\.[^\s@]+$` */
  predicate StrictEmail(s: string)
    decreases |s|
  {
    |s| >= 2 && Plain(s[0]) && ((s[1] == '@' && StrictDomain(s[2..])) || StrictEmail(s[1..]))
  }

  /** `@` at `p` is the only one, and a `.` at `d` has a character on either side within the domain. */
  predicate EmailParts(s: string, p: int, d: int) {
    0 < p && p + 1 < d && d + 1 < |s| && s[p] == '@' && s[d] == '.'
    && forall k :: 0 <= k < |s| && s[k] == '@' ==> k == p
  }

  lemma {:induction false} StrictTailIff(s: string)
    ensures StrictTail(s) <==> s != [] && AllPlain(s)
    decreases |s|
  {
    if |s| > 1 {
      StrictTailIff(s[1..]);
    }
  }

  lemma {:induction false} StrictDomainWitness(s: string) returns (d: int)
    requires StrictDomain(s)
    ensures 0 < d && d + 1 < |s| && s[d] == '.' && AllPlain(s)
    decreases |s|
  {
    if s[1] == '.' && StrictTail(s[2..]) {
      StrictTailIff(s[2..]);
      d := 1;
    } else {
      var d' := StrictDomainWitness(s[1..]);
      d := d' + 1;
    }
  }

  lemma {:induction false} StrictDomainFromWitness(s: string, d: int)
    requires 0 < d && d + 1 < |s| && s[d] == '.' && AllPlain(s)
    ensures StrictDomain(s)
    decreases |s|
  {
    if d == 1 {
      StrictTailIff(s[2..]);
    } else {
      StrictDomainFromWitness(s[1..], d - 1);
    }
  }

  lemma {:induction false} StrictEmailWitness(s: string) returns (p: int, d: int)
    requires StrictEmail(s)
    ensures 0 < p && p + 1 < d && d + 1 < |s| && s[p] == '@' && s[d] == '.'
    ensures AllPlain(s[..p]) && AllPlain(s[p + 1..])
    decreases |s|
  {
    if s[1] == '@' && StrictDomain(s[2..]) {
      var d' := StrictDomainWitness(s[2..]);
      p, d := 1, d' + 2;
    } else {
      var p', d' := StrictEmailWitness(s[1..]);
      p, d := p' + 1, d' + 1;
      assert s[..p] == [s[0]] + s[1..][..p'];
      assert s[p + 1..] == s[1..][p' + 1..];
    }
  }

  lemma {:induction false} StrictEmailFromWitness(s: string, p: int, d: int)
    requires 0 < p && p + 1 < d && d + 1 < |s| && s[p] == '@' && s[d] == '.'
    requires AllPlain(s[..p]) && AllPlain(s[p + 1..])
    ensures StrictEmail(s)
    decreases |s|
  {
    assert s[..p][0] == s[0];
    if p == 1 {
      StrictDomainFromWitness(s[2..], d - 2);
    } else {
      assert s[1..][..p - 1] == s[..p][1..];
      assert s[1..][p..] == s[p + 1..];
      StrictEmailFromWitness(s[1..], p - 1, d - 1);
    }
  }

  /**
   * The anchored email test passes exactly the strings with no white space,
   * exactly one `@`, not first, and a `.` in what follows it with at least one
   * character between the two and at least one after the dot.
   */
  lemma StrictEmailIff(s: string)
    ensures StrictEmail(s) <==> AllNotSpace(s) && exists p, d :: EmailParts(s, p, d)
  {
    if StrictEmail(s) {
      var p, d := StrictEmailWitness(s);
      forall k | 0 <= k < |s| && k != p
        ensures Plain(s[k])
      {
        if k < p {
          assert s[..p][k] == s[k];
        } else {
          assert s[p + 1..][k - p - 1] == s[k];
        }
      }
      assert EmailParts(s, p, d);
    }
    if AllNotSpace(s) && exists p, d :: EmailParts(s, p, d) {
      var p, d :| EmailParts(s, p, d);
      assert AllPlain(s[..p]);
      assert AllPlain(s[p + 1..]);
      StrictEmailFromWitness(s, p, d);
    }
  }

  // ---------------------------------------------------------------------------
  // /^\+?[\d\s-()]+$/ (inside the class, `\s-(` is the three characters, not a range)

  /** `[\d\s-()]` */
  predicate PhoneChar(c: char) {
    IsDigit(c) || IsSpace(c) || c == '-' || c == '(' || c == ')'
  }

  /** `[\d\s-()]+$` */
  predicate PhoneRun(s: string)
    decreases |s|
  {
    s != [] && PhoneChar(s[0]) && (|s| == 1 || PhoneRun(s[1..]))
  }

  /** `^\+?[\d\s-()]+$` */
  predicate LoosePhone(s: string) {
    (s != [] && s[0] == '+' && PhoneRun(s[1..])) || PhoneRun(s)
  }

  lemma {:induction false} PhoneRunIff(s: string)
    ensures PhoneRun(s) <==> s != [] && forall k :: 0 <= k < |s| ==> PhoneChar(s[k])
    decreases |s|
  {
    if |s| > 1 {
      PhoneRunIff(s[1..]);
    }
  }

  /**
   * The permissive phone test passes exactly an optional leading `+` followed
   * by one or more digits, white space, hyphens and parentheses.
   */
  lemma LoosePhoneIff(s: string)
    ensures LoosePhone(s) <==>
      var body := if s != [] && s[0] == '+' then s[1..] else s;
      body != [] && forall k :: 0 <= k < |body| ==> PhoneChar(body[k])
  {
    PhoneRunIff(s);
    if s != [] {
      PhoneRunIff(s[1..]);
    }
  }

  // ---------------------------------------------------------------------------
  // /^(\+?\d{1,3}[- ]?)?\d{10}$/

  predicate AllDigits(s: string) {
    forall k :: 0 <= k < |s| ==> IsDigit(s[k])
  }

  /** `\d{10}$` */
  predicate Subscriber(s: string) {
    |s| == 10 && AllDigits(s)
  }

  /** `[- ]?\d{10}$` */
  predicate AfterCode(s: string) {
    Subscriber(s) || (s != [] && (s[0] == '-' || s[0] == ' ') && Subscriber(s[1..]))
  }

  /** `\d{n}[- ]?\d{10}$` */
  predicate CodeOf(s: string, n: nat) {
    n <= |s| && AllDigits(s[..n]) && AfterCode(s[n..])
  }

  /** `\d{1,3}[- ]?\d{10}$` */
  predicate Coded(s: string) {
    CodeOf(s, 1) || CodeOf(s, 2) || CodeOf(s, 3)
  }

  /** `^(\+?\d{1,3}[- ]?)?\d{10}$` */
  predicate StrictPhone(s: string) {
    Subscriber(s) || Coded(s) || (s != [] && s[0] == '+' && Coded(s[1..]))
  }

  lemma AfterCodeShape(s: string)
    requires AfterCode(s)
    ensures 10 <= |s| <= 11 && AllDigits(s[|s| - 10..])
  {
    if Subscriber(s) {
      assert s[|s| - 10..] == s;
    } else {
      assert s[1..] == s[|s| - 10..];
    }
  }

  lemma CodeOfShape(s: string, n: nat)
    requires CodeOf(s, n)
    ensures n + 10 <= |s| <= n + 11 && AllDigits(s[|s| - 10..])
  {
    var rest := s[n..];
    AfterCodeShape(rest);
    assert rest[|rest| - 10..] == s[|s| - 10..];
  }

  lemma CodedShape(s: string)
    requires Coded(s)
    ensures 11 <= |s| <= 14 && AllDigits(s[|s| - 10..])
  {
    if CodeOf(s, 1) {
      CodeOfShape(s, 1);
    } else if CodeOf(s, 2) {
      CodeOfShape(s, 2);
    } else {
      CodeOfShape(s, 3);
    }
  }

  /** An accepted number ends in ten digits and is ten to fifteen characters long. */
  lemma StrictPhoneShape(s: string)
    requires StrictPhone(s)
    ensures 10 <= |s| <= 15
    ensures AllDigits(s[|s| - 10..])
  {
    if Subscriber(s) {
      assert s[|s| - 10..] == s;
    } else if Coded(s) {
      CodedShape(s);
    } else {
      PlusCodedShape(s);
    }
  }

  lemma PlusCodedShape(s: string)
    requires s != [] && s[0] == '+' && Coded(s[1..])
    ensures 12 <= |s| <= 15 && AllDigits(s[|s| - 10..])
  {
    var t := s[1..];
    CodedShape(t);
    assert t[|t| - 10..] == s[|s| - 10..];
  }

  /** A plain run of digits passes exactly when it has ten to thirteen of them. */
  lemma StrictPhoneDigits(s: string)
    requires AllDigits(s)
    ensures StrictPhone(s) <==> 10 <= |s| <= 13
  {
    if 10 < |s| <= 13 {
      var n := |s| - 10;
      assert AllDigits(s[..n]) && Subscriber(s[n..]);
      assert CodeOf(s, n);
    }
    if StrictPhone(s) && !Subscriber(s) {
      assert s != [] ==> IsDigit(s[0]);
      forall n: nat | 1 <= n <= 3 && CodeOf(s, n)
        ensures |s| == n + 10
      {
        var rest := s[n..];
        assert rest != [] ==> rest[0] == s[n] && IsDigit(rest[0]);
      }
    }
  }
}
