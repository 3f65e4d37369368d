/**
 * `pkg/helpers`: `IsValidEmail`, which lower-cases its input and matches it
 * against `^[a-z0-9._%+\-]+@[a-z0-9.\-]+\.[a-z]{2,}$`. The regular
 * expression's language is stated directly (`InEmailLanguage`) and matched by
 * a deterministic scan for the `@` and the last `.`; the two are proved equal.
 */
module Helpers {
  import opened Text

  predicate IsLowerLetter(c: char) {
    'a' <= c <= 'z'
  }

  predicate IsDigit(c: char) {
    '0' <= c <= '9'
  }

  /** `[a-z0-9._%+\-]` */
  predicate IsLocalChar(c: char) {
    IsLowerLetter(c) || IsDigit(c) || c == '.' || c == '_' || c == '%' || c == '+' || c == '-'
  }

  /** `[a-z0-9.\-]` */
  predicate IsDomainChar(c: char) {
    IsLowerLetter(c) || IsDigit(c) || c == '.' || c == '-'
  }

  /** `[a-z0-9._%+\-]+` */
  predicate IsLocalPart(s: string) {
    |s| > 0 && forall i :: 0 <= i < |s| ==> IsLocalChar(s[i])
  }

  /** `[a-z0-9.\-]+` */
  predicate IsDomainPart(s: string) {
    |s| > 0 && forall i :: 0 <= i < |s| ==> IsDomainChar(s[i])
  }

  /** `[a-z]{2,}` */
  predicate IsTopLevel(s: string) {
    |s| >= 2 && forall i :: 0 <= i < |s| ==> IsLowerLetter(s[i])
  }

  /** `s` splits at `s[at] == '@'` and `s[dot] == '.'` into the regular expression's three parts. */
  predicate SplitsAt(s: string, at: int, dot: int) {
    && 0 <= at < dot < |s|
    && s[at] == '@' && s[dot] == '.'
    && IsLocalPart(s[..at]) && IsDomainPart(s[at + 1..dot]) && IsTopLevel(s[dot + 1..])
  }

  /** The language of the anchored regular expression. */
  predicate InEmailLanguage(s: string) {
    exists at, dot | 0 <= at < dot < |s| :: SplitsAt(s, at, dot)
  }

  /** The index of the first `c` in `s`, or `|s|` when there is none. */
  function FirstIndex(s: string, c: char): (r: nat)
    ensures r <= |s|
    ensures r < |s| ==> s[r] == c
    ensures forall i :: 0 <= i < r ==> s[i] != c
  {
    if s == [] then 0
    else if s[0] == c then 0
    else 1 + FirstIndex(s[1..], c)
  }

  /** The index of the last `c` in `s`, or -1 when there is none. */
  function LastIndex(s: string, c: char): (r: int)
    ensures -1 <= r < |s|
    ensures r >= 0 ==> s[r] == c
    ensures forall i :: r < i < |s| ==> s[i] != c
  {
    if s == [] then -1
    else if s[|s| - 1] == c then |s| - 1
    else LastIndex(s[..|s| - 1], c)
  }

  /** The matcher: the first `@` and the last `.` are the only places the parts can meet. */
  predicate Matches(s: string) {
    SplitsAt(s, FirstIndex(s, '@'), LastIndex(s, '.'))
  }

  /** `IsValidEmail`: the empty string is rejected, anything else is lower-cased and matched. */
  predicate IsValidEmail(email: string) {
    if email == "" then false else Matches(Lower(email))
  }

  /** In any split, the `@` is the first one and the `.` the last one. */
  lemma SplitIsUnique(s: string, at: int, dot: int)
    requires SplitsAt(s, at, dot)
    ensures at == FirstIndex(s, '@') && dot == LastIndex(s, '.')
    ensures forall i :: 0 <= i < |s| && s[i] == '@' ==> i == at
  {
    assert forall i :: 0 <= i < at ==> s[i] != '@' by {
      NoAtInLocalPart(s, at, dot);
    }
    assert forall i :: at < i < |s| ==> s[i] != '@' by {
      NoAtAfterSign(s, at, dot);
    }
    assert forall i :: dot < i < |s| ==> s[i] != '.' by {
      NoDotInTopLevel(s, at, dot);
    }
  }

  lemma NoAtInLocalPart(s: string, at: int, dot: int)
    requires SplitsAt(s, at, dot)
    ensures forall i :: 0 <= i < at ==> s[i] != '@'
  {
    forall i | 0 <= i < at ensures s[i] != '@' {
      assert s[..at][i] == s[i];
    }
  }

  lemma NoAtAfterSign(s: string, at: int, dot: int)
    requires SplitsAt(s, at, dot)
    ensures forall i :: at < i < |s| ==> s[i] != '@'
  {
    forall i | at < i < |s| ensures s[i] != '@' {
      if i < dot {
        assert s[at + 1..dot][i - at - 1] == s[i];
      } else if i > dot {
        assert s[dot + 1..][i - dot - 1] == s[i];
      }
    }
  }

  /** After the `.` of a split come only letters. */
  lemma TopLevelLetters(s: string, at: int, dot: int)
    requires SplitsAt(s, at, dot)
    ensures forall i :: dot < i < |s| ==> IsLowerLetter(s[i])
  {
    forall i | dot < i < |s| ensures IsLowerLetter(s[i]) {
      assert s[dot + 1..][i - dot - 1] == s[i];
    }
  }

  lemma NoDotInTopLevel(s: string, at: int, dot: int)
    requires SplitsAt(s, at, dot)
    ensures forall i :: dot < i < |s| ==> s[i] != '.'
  {
    TopLevelLetters(s, at, dot);
  }

  /** The deterministic matcher accepts exactly the regular expression's language. */
  lemma MatchesIffInLanguage(s: string)
    ensures Matches(s) <==> InEmailLanguage(s)
  {
    if InEmailLanguage(s) {
      var at, dot :| SplitsAt(s, at, dot);
      SplitIsUnique(s, at, dot);
    }
  }

  /** `IsValidEmail` accepts exactly the strings whose lower-case form is in the language. */
  lemma IsValidEmailMeansLanguage(email: string)
    ensures IsValidEmail(email) <==> InEmailLanguage(Lower(email))
  {
    MatchesIffInLanguage(Lower(email));
    if email == "" {
      assert Lower(email) == "";
    }
  }

  lemma EmptyIsRejected()
    ensures !IsValidEmail("")
  {
  }

  /** Validation ignores ASCII case. */
  lemma CaseInsensitive(email: string)
    ensures IsValidEmail(email) == IsValidEmail(Lower(email))
  {
    LowerIdempotent(email);
  }

  predicate IsAsciiLetter(c: char) {
    'a' <= c <= 'z' || 'A' <= c <= 'Z'
  }

  /**
   * An accepted address has exactly one `@`, after a non-empty local part;
   * after its last `.` come two or more letters, and at least one domain
   * character sits between the `@` and that `.`.
   */
  lemma AcceptedShape(email: string)
    requires IsValidEmail(email)
    ensures var at := FirstIndex(email, '@');
      var dot := LastIndex(email, '.');
      && 0 < at && at + 1 < dot && dot + 2 < |email|
      && email[at] == '@' && email[dot] == '.'
      && (forall i :: 0 <= i < |email| && email[i] == '@' ==> i == at)
      && (forall i :: dot < i < |email| ==> IsAsciiLetter(email[i]))
  {
    var s := Lower(email);
    var at := FirstIndex(s, '@');
    var dot := LastIndex(s, '.');
    assert SplitsAt(s, at, dot);
    assert forall i :: 0 <= i < |s| && s[i] == '@' ==> i == at by {
      SplitIsUnique(s, at, dot);
    }
    assert forall i :: dot < i < |s| ==> IsLowerLetter(s[i]) by {
      TopLevelLetters(s, at, dot);
    }
    assert FirstIndex(email, '@') == at && forall i :: 0 <= i < |email| ==> (s[i] == '@' <==> email[i] == '@') by {
      LowerKeepsPunctuation(email, '@');
    }
    assert LastIndex(email, '.') == dot && email[dot] == '.' by {
      LowerKeepsPunctuation(email, '.');
    }
    forall i | dot < i < |email| ensures IsAsciiLetter(email[i]) {
      assert IsLowerLetter(LowerChar(email[i]));
    }
  }

  /** Lower-casing leaves a non-letter where it was, and creates none. */
  lemma LowerKeepsPunctuation(s: string, c: char)
    requires !('A' <= c <= 'Z') && !('a' <= c <= 'z')
    ensures forall i :: 0 <= i < |s| ==> (Lower(s)[i] == c <==> s[i] == c)
    ensures FirstIndex(Lower(s), c) == FirstIndex(s, c)
    ensures LastIndex(Lower(s), c) == LastIndex(s, c)
  {
    var l := Lower(s);
    assert forall i :: 0 <= i < |s| ==> (l[i] == c <==> s[i] == c);
    IndexesAgree(s, l, c);
  }

  /** Two strings with `c` at the same places have the same first and last `c`. */
  lemma {:induction false} IndexesAgree(s: string, t: string, c: char)
    requires |s| == |t|
    requires forall i :: 0 <= i < |s| ==> (s[i] == c <==> t[i] == c)
    ensures FirstIndex(s, c) == FirstIndex(t, c)
    ensures LastIndex(s, c) == LastIndex(t, c)
  {
    if s != [] {
      IndexesAgree(s[1..], t[1..], c);
      IndexesAgree(s[..|s| - 1], t[..|t| - 1], c);
    }
  }

  /** A one-letter top-level domain is rejected, a two-letter one accepted. */
  lemma TopLevelNeedsTwoLetters()
    ensures !IsValidEmail("a@b.c")
    ensures IsValidEmail("a@b.co")
  {
    var s := "a@b.co";
    assert Lower(s) == s;
    assert FirstIndex(s, '@') == 1;
    assert LastIndex(s, '.') == 3;
    assert SplitsAt(s, 1, 3);
    var t := "a@b.c";
    assert Lower(t) == t;
    assert LastIndex(t, '.') == 3;
    assert t[4..] == "c";
  }
}
