/**
 * What the login and registration pages do to an email address: the
 * `^\S+@\S+$` rule checked on the value the form reads, and the normalisation
 * `email.trim().toLowerCase()` applied before it is sent.
 */
module Credentials {
  import opened Wrappers
  import opened Text

  /** `s` splits at position `i` the way `^\S+@\S+$` reads it: a non-empty
      run without whitespace, the '@' at `i`, and another such run. */
  predicate SplitsAt(s: string, i: int) {
    0 < i < |s| - 1 && s[i] == '@' && NoSpace(s[..i]) && NoSpace(s[i + 1..])
  }

  /** `/^\S+@\S+$/i.test(s)`; the `i` flag changes nothing for `\S` and '@'. */
  predicate EmailPattern(s: string) {
    exists i :: 0 < i < |s| - 1 && SplitsAt(s, i)
  }

  /** A split as the pattern reads it leaves no whitespace anywhere. */
  lemma {:induction false} SplitHasNoSpace(s: string, i: int)
    requires SplitsAt(s, i)
    ensures NoSpace(s)
  {
    forall k | 0 <= k < |s|
      ensures !IsSpace(s[k])
    {
      if k < i {
        assert s[k] == s[..i][k];
      } else if k > i {
        assert s[k] == s[i + 1..][k - i - 1];
      }
    }
  }

  /** The pattern holds exactly when the text has no whitespace at all and
      an '@' that is neither its first nor its last character. */
  lemma {:induction false} EmailPatternIff(s: string)
    ensures EmailPattern(s) <==> NoSpace(s) && exists i :: 0 < i < |s| - 1 && s[i] == '@'
  {
    if EmailPattern(s) {
      var i :| 0 < i < |s| - 1 && SplitsAt(s, i);
      SplitHasNoSpace(s, i);
    }
    if NoSpace(s) && exists i :: 0 < i < |s| - 1 && s[i] == '@' {
      var i :| 0 < i < |s| - 1 && s[i] == '@';
      assert SplitsAt(s, i);
    }
  }

  /** The rule of an email input, `required` first and then the pattern. */
  function EmailError(email: string, missing: string, malformed: string): (e: Option<string>)
    ensures e.None? <==> EmailPattern(email)
    ensures email == "" ==> e == Some(missing)
    ensures email != "" && !EmailPattern(email) ==> e == Some(malformed)
  {
    if email == "" then Some(missing)
    else if !EmailPattern(email) then Some(malformed)
    else None
  }

  /** `email.trim().toLowerCase()` */
  function Normalise(email: string): string {
    ToLower(Trim(email))
  }

  /** A normalised address has no whitespace at either end and no upper
      case letter. */
  lemma {:induction false} NormalisedShape(email: string)
    ensures var n := Normalise(email);
            (n != [] ==> !IsSpace(n[0]) && !IsSpace(n[|n| - 1]))
            && forall i :: 0 <= i < |n| ==> !IsUpper(n[i])
  {
    var t := Trim(email);
    var n := ToLower(t);
    if n != [] {
      assert n[0] == LowerChar(t[0]) && n[|n| - 1] == LowerChar(t[|t| - 1]);
    }
  }

  /** Normalising twice is normalising once. */
  lemma {:induction false} NormaliseIdempotent(email: string)
    ensures Normalise(Normalise(email)) == Normalise(email)
  {
    var n := Normalise(email);
    NormalisedShape(email);
    TrimStartOfTrimmed(n);
    TrimEndOfTrimmed(n);
    assert Trim(n) == n;
    ToLowerIdempotent(Trim(email));
  }

  /** Lower-casing keeps a split where it is: '@' is not a letter and
      lower-casing neither adds nor removes whitespace. */
  lemma {:induction false} LowerKeepsSplit(s: string, i: int)
    requires SplitsAt(s, i)
    ensures SplitsAt(ToLower(s), i)
  {
    var low := ToLower(s);
    assert low[i] == LowerChar(s[i]) == '@';
    SplitHasNoSpace(s, i);
    forall k | 0 <= k < |low|
      ensures !IsSpace(low[k])
    {
      assert low[k] == LowerChar(s[k]);
    }
    assert NoSpace(low[..i]) && NoSpace(low[i + 1..]);
  }

  /** Text without whitespace is only lower-cased. */
  lemma {:induction false} NormaliseWithoutSpace(email: string)
    requires NoSpace(email)
    ensures Normalise(email) == ToLower(email)
  {
    TrimNoSpace(email);
  }

  /** Lower-casing text that passes the pattern gives text that passes it. */
  lemma {:induction false} LowerKeepsPattern(email: string, i: int)
    requires SplitsAt(email, i)
    ensures EmailPattern(ToLower(email))
  {
    LowerKeepsSplit(email, i);
  }

  /** An address that passes the pattern has no whitespace to trim, so it is
      sent lower-cased and otherwise as given, and still passes the pattern. */
  lemma {:induction false} AcceptedEmailIsSentLowerCased(email: string)
    requires EmailPattern(email)
    ensures Normalise(email) == ToLower(email)
    ensures EmailPattern(Normalise(email))
  {
    var i :| 0 < i < |email| - 1 && SplitsAt(email, i);
    SplitHasNoSpace(email, i);
    NormaliseWithoutSpace(email);
    LowerKeepsPattern(email, i);
  }
}
