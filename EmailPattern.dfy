/**
 * The e-mail check shared by the login, sign-up and forgot-password forms:
 * `/\S+@\S+\.\S+/.test(email)`. The pattern is not anchored, so the test asks
 * whether SOME substring of the address matches it.
 */
module EmailPattern {
  import opened Text
  import opened Wrappers

  const EmailRequired := "Email is required"
  const EmailInvalid := "Email is invalid"

  /**
   * A match of `\S+@\S+\.\S+` whose '@' is at index `at` and whose `\.` is at
   * index `dot`. The shortest such match runs from `at - 1` to `dot + 1`; any
   * longer one contains it, so these conditions are exactly what a match needs.
   * The characters matched by `\S` may themselves be '@' or '.'.
   */
  ghost predicate MatchAt(s: string, at: int, dot: int)
  {
    && 0 < at && at + 1 < dot && dot + 1 < |s|
    && !IsSpace(s[at - 1]) && s[at] == '@'
    && (forall j | at < j < dot :: !IsSpace(s[j]))
    && s[dot] == '.' && !IsSpace(s[dot + 1])
  }

  /**
   * Scans for a '.' that completes a match whose '@' is at `at`, knowing that
   * everything between `at` and `dot` is non-space.
   */
  function DomainFrom(s: string, at: nat, dot: nat): (r: bool)
    requires 0 < at < dot <= |s| && !IsSpace(s[at - 1]) && s[at] == '@'
    requires forall j | at < j < dot :: !IsSpace(s[j])
    ensures r <==> exists d :: dot <= d && MatchAt(s, at, d)
    decreases |s| - dot
  {
    if dot + 1 >= |s| then false
    else if IsSpace(s[dot]) then false
    else if at + 1 < dot && s[dot] == '.' && !IsSpace(s[dot + 1]) then
      assert MatchAt(s, at, dot);
      true
    else DomainFrom(s, at, dot + 1)
  }

  /** Scans for an '@' at index `at` or later that starts a match. */
  function SearchFrom(s: string, at: nat): (r: bool)
    requires at <= |s|
    ensures r <==> exists a, d :: at <= a && MatchAt(s, a, d)
    decreases |s| - at
  {
    if at == |s| then false
    else if 0 < at && s[at] == '@' && !IsSpace(s[at - 1]) && DomainFrom(s, at, at + 1) then true
    else SearchFrom(s, at + 1)
  }

  /** `/\S+@\S+\.\S+/.test(s)`: some substring of `s` matches the pattern. */
  function ContainsEmailPattern(s: string): (r: bool)
    ensures r <==> exists a, d :: MatchAt(s, a, d)
  {
    SearchFrom(s, 0)
  }

  /**
   * The error the three forms attach to an e-mail field: required when it is
   * empty, otherwise invalid when the pattern test fails, otherwise none.
   */
  function EmailError(email: string): (e: Option<string>)
    ensures e == None <==> email != "" && ContainsEmailPattern(email)
    ensures e == Some(EmailRequired) <==> email == ""
    ensures e == Some(EmailInvalid) <==> email != "" && !ContainsEmailPattern(email)
  {
    if email == "" then Some(EmailRequired)
    else if !ContainsEmailPattern(email) then Some(EmailInvalid)
    else None
  }

  /** An ordinary address passes. */
  lemma PlainAddressAccepted()
    ensures ContainsEmailPattern("jo@city.in")
  {
  }

  /** The characters matched by `\S` may be '@' or '.': "@@@.." passes. */
  lemma SymbolsMatchNonSpace()
    ensures ContainsEmailPattern("@@@..")
  {
  }

  /** Extra text around a match does not matter: the test is unanchored. */
  lemma UnanchoredMatch(prefix: string, s: string, suffix: string)
    requires ContainsEmailPattern(s)
    ensures ContainsEmailPattern(prefix + s + suffix)
  {
    var t := prefix + s + suffix;
    var k := |prefix|;
    var a, d :| MatchAt(s, a, d);
    forall j | 0 <= j < |s| ensures t[k + j] == s[j] {
      assert t[k + j] == (prefix + s)[k + j];
    }
    assert MatchAt(t, a + k, d + k);
  }

  /** A string without '@' never passes, e.g. "not-an-email". */
  lemma NoAtSignRejected(s: string)
    requires forall i | 0 <= i < |s| :: s[i] != '@'
    ensures !ContainsEmailPattern(s)
  {
  }

  /** A space between '@' and the last '.' breaks the match: "a@b .c" fails. */
  lemma SpaceInDomainRejected()
    ensures !ContainsEmailPattern("a@b .c")
  {
  }
}
