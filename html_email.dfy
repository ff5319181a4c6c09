/**
 * The browser's check of an `<input type="email">`: the value must be a
 * "valid e-mail address" as the HTML Living Standard defines it (section
 * 4.10.5.1.5, E-mail state): a non-empty local part of letters, digits and
 * the characters .!#$%&'*+/=?^_`{|}~- , an "@", and a domain made of
 * dot-separated labels of 1 to 63 letters, digits or hyphens that start and
 * end with a letter or digit.
 */
module HtmlEmail {
  import opened Common
  import Seqs

  predicate IsAlnum(c: char) {
    'a' <= c <= 'z' || 'A' <= c <= 'Z' || '0' <= c <= '9'
  }

  predicate IsLocalChar(c: char) {
    IsAlnum(c) || c in ".!#$%&'*+/=?^_`{|}~-"
  }

  predicate IsLocalPart(l: string) {
    l != [] && forall i :: 0 <= i < |l| ==> IsLocalChar(l[i])
  }

  predicate IsLabel(l: string) {
    1 <= |l| <= 63 && IsAlnum(l[0]) && IsAlnum(l[|l| - 1]) &&
    forall i :: 0 <= i < |l| ==> IsAlnum(l[i]) || l[i] == '-'
  }

  /** The index of the first `c` in `s`, if any. */
  function IndexOf(s: string, c: char): (r: Option<nat>)
    ensures r.None? <==> c !in s
    ensures r.Some? ==> r.value < |s| && s[r.value] == c && c !in s[..r.value]
  {
    var found := Seqs.FindIndex(s, (x: char) => x == c);
    assert found.Some? ==> c !in s[..found.value] by {
      if found.Some? {
        forall j | 0 <= j < found.value ensures s[..found.value][j] != c {
          assert s[..found.value][j] == s[j];
        }
      }
    }
    found
  }

  /** One or more labels separated by single dots. */
  predicate IsDomain(d: string)
    decreases |d|
  {
    match IndexOf(d, '.')
    case None => IsLabel(d)
    case Some(k) => IsLabel(d[..k]) && IsDomain(d[k + 1..])
  }

  predicate IsValidEmail(s: string) {
    match IndexOf(s, '@')
    case None => false
    case Some(k) => IsLocalPart(s[..k]) && IsDomain(s[k + 1..])
  }

  lemma LabelHasNoAt(l: string)
    requires IsLabel(l)
    ensures '@' !in l
  {
    assert forall i :: 0 <= i < |l| ==> l[i] != '@';
  }

  /** No label, and so no domain, holds an "@". */
  lemma {:induction false} DomainHasNoAt(d: string)
    requires IsDomain(d)
    ensures '@' !in d
    decreases |d|
  {
    match IndexOf(d, '.')
    case None =>
      LabelHasNoAt(d);
    case Some(k) =>
      LabelHasNoAt(d[..k]);
      DomainHasNoAt(d[k + 1..]);
      assert d == d[..k] + [d[k]] + d[k + 1..];
  }

  /**
   * A valid address is a non-empty local part, exactly one "@", and a
   * domain: it splits at that "@", and the local part and the domain hold
   * no other "@".
   */
  lemma ValidEmailSplits(s: string) returns (local: string, domain: string)
    requires IsValidEmail(s)
    ensures s == local + "@" + domain
    ensures IsLocalPart(local) && IsDomain(domain)
    ensures '@' !in local && '@' !in domain
  {
    var k := IndexOf(s, '@').value;
    local, domain := s[..k], s[k + 1..];
    assert IsLocalPart(local) && IsDomain(domain);
    DomainHasNoAt(domain);
    assert s[k] == '@';
    assert s == local + [s[k]] + domain;
  }

  /** An index holding `c` with no `c` before it is the one `IndexOf` finds. */
  lemma IndexOfIsFirst(s: string, c: char, k: nat)
    requires k < |s| && s[k] == c && c !in s[..k]
    ensures IndexOf(s, c) == Some(k)
  {
    var r := IndexOf(s, c).value;
    NoneBefore(s, c, k);
    NoneBefore(s, c, r);
  }

  lemma NoneBefore(s: string, c: char, k: nat)
    requires k <= |s| && c !in s[..k]
    ensures forall j :: 0 <= j < k ==> s[j] != c
  {
    forall j | 0 <= j < k ensures s[j] != c {
      assert s[..k][j] == s[j];
    }
  }

  lemma LocalPartHasNoAt(l: string)
    requires IsLocalPart(l)
    ensures '@' !in l
  {
    assert forall i :: 0 <= i < |l| ==> l[i] != '@';
  }

  /** Conversely, a local part, an "@" and a domain always make a valid address. */
  lemma JoinedAddressIsValid(local: string, domain: string)
    requires IsLocalPart(local) && IsDomain(domain)
    ensures IsValidEmail(local + "@" + domain)
  {
    var s := local + "@" + domain;
    LocalPartHasNoAt(local);
    assert s[..|local|] == local;
    IndexOfIsFirst(s, '@', |local|);
    assert s[|local| + 1..] == domain;
  }

  lemma AtMeansNoDomain(d: string)
    requires '@' in d
    ensures !IsDomain(d)
  {
    if IsDomain(d) {
      DomainHasNoAt(d);
    }
  }

  /** The empty string is no domain. */
  lemma EmptyIsNoDomain()
    ensures !IsDomain([])
  {
    assert IndexOf([], '.') == None;
  }

  /** Without a local part the browser refuses the address. */
  lemma NoLocalPartIsInvalid(rest: string)
    ensures !IsValidEmail("@" + rest)
  {
    var s := "@" + rest;
    assert s[0] == '@';
  }

  /** With nothing after the last "@" the browser refuses the address. */
  lemma NoDomainIsInvalid(local: string)
    ensures !IsValidEmail(local + "@")
  {
    var t := local + "@";
    assert t[|t| - 1] == '@';
    var j := IndexOf(t, '@').value;
    assert !IsDomain(t[j + 1..]) by {
      if j + 1 == |t| {
        assert t[j + 1..] == [];
        EmptyIsNoDomain();
      } else {
        assert t[j + 1..][|t| - j - 2] == '@';
        AtMeansNoDomain(t[j + 1..]);
      }
    }
  }
}
