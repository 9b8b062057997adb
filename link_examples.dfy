/** Worked examples of the `Link` header search, and the lemmas they rest on. */
module LinkExamples {
  import opened Wrappers
  import opened Text
  import opened Links

  /**
   * A terms-of-service link followed by the issuer link: in
   * `<https://ca.example/acct/1>;rel="terms-of-service", <https://ca.example/issuer>;rel="up"`
   * the second entry is the first to mention `up`.
   */
  lemma IssuerExample(terms: string, issuer: string, account: string, url: string)
    requires account == "https://ca.example/acct/1" && url == "https://ca.example/issuer"
    requires terms == "<" + account + ">;rel=\"terms-of-service\""
    requires issuer == "<" + url + ">;rel=\"up\""
    ensures FindLink(Some(terms + ", " + issuer), "up") == Link(url)
  {
    assert terms + ", " + issuer == terms + [','] + (" " + issuer);
    TermsEntry(terms, account);
    IssuerEntry(issuer, url);
    LinkOfSecondEntry(terms + ", " + issuer, terms, issuer, "up");
  }

  /** The terms-of-service entry holds no comma and no `u`. */
  lemma TermsEntry(a: string, account: string)
    requires account == "https://ca.example/acct/1"
    requires a == "<" + account + ">;rel=\"terms-of-service\""
    ensures ',' !in a && 'u' !in a
  {
    var tail := ">;rel=\"terms-of-service\"";
    assert forall k | 0 <= k < |account| :: account[k] != ',' && account[k] != 'u';
    assert forall k | 0 <= k < |tail| :: tail[k] != ',' && tail[k] != 'u';
  }

  /** The issuer entry holds no comma, mentions `up`, and brackets the issuer URL. */
  lemma IssuerEntry(b: string, url: string)
    requires url == "https://ca.example/issuer"
    requires b == "<" + url + ">;rel=\"up\""
    ensures ',' !in b && Contains(b, "up") && Bracketed(b) == Link(url)
  {
    var tail := ">;rel=\"up\"";
    assert forall k | 0 <= k < |url| :: url[k] != ',' && url[k] != '>';
    assert forall k | 0 <= k < |tail| :: tail[k] != ',';
    var n := |url| + 1;
    assert b[..n] == "<" + url;
    assert b[1..n] == url;
    assert b[n] == '>';
    FindFirst(b, {'>'}, n);
    assert b[n + 7..n + 9] == "up";
    assert OccursAt(b, "up", n + 7);
  }

  /** A header `a, b` whose first entry lacks the relation yields the second entry's outcome. */
  lemma LinkOfSecondEntry(header: string, a: string, b: string, rel: string)
    requires header == a + [','] + (" " + b)
    requires ',' !in a && ',' !in b
    requires |a| > 0 && !IsSpace(a[0]) && !IsSpace(a[|a| - 1])
    requires |b| > 0 && !IsSpace(b[0]) && !IsSpace(b[|b| - 1])
    requires |rel| > 0 && rel[0] !in a
    ensures FindLink(Some(header), rel) == if Contains(b, rel) then Bracketed(b) else NoLink
  {
    SplitTwo(a, " " + b, ',');
    EntriesOfTwo(header, a, b);
    MissingFirstChar(a, rel);
    SkipEntry(a, [b], rel);
    OneEntry(b, rel);
  }

  lemma EntriesOfTwo(header: string, a: string, b: string)
    requires Split(header, ',') == [a, " " + b]
    requires |a| > 0 && !IsSpace(a[0]) && !IsSpace(a[|a| - 1])
    requires |b| > 0 && !IsSpace(b[0]) && !IsSpace(b[|b| - 1])
    ensures Entries(Some(header)) == [a, b]
  {
    StripUnpadded(a);
    StripUnpadded(b);
    assert (" " + b)[1..] == b;
    StripAllAt([a, " " + b], 0);
    StripAllAt([a, " " + b], 1);
  }

  lemma SkipEntry(a: string, rest: seq<string>, rel: string)
    requires !Contains(a, rel)
    ensures FirstLink([a] + rest, rel) == FirstLink(rest, rel)
  {
    assert ([a] + rest)[1..] == rest;
  }

  lemma OneEntry(e: string, rel: string)
    ensures FirstLink([e], rel) == if Contains(e, rel) then Bracketed(e) else NoLink
  {
    assert [e][1..] == [];
  }

  /** A header with a single entry yields that entry's outcome, or nothing. */
  lemma LinkOfOnlyEntry(e: string, rel: string)
    requires ',' !in e
    requires |e| > 0 && !IsSpace(e[0]) && !IsSpace(e[|e| - 1])
    ensures FindLink(Some(e), rel) == if Contains(e, rel) then Bracketed(e) else NoLink
  {
    SplitWithoutSeparator(e, ',');
    StripUnpadded(e);
    StripAllAt([e], 0);
    OneEntry(e, rel);
  }

  /** The relation test is a substring test: `up` also matches inside `/backup`. */
  lemma SubstringMatch(e: string)
    requires e == "</backup>; rel=\"next\""
    ensures FindLink(Some(e), "up") == Link("/backup")
  {
    assert forall k | 0 <= k < |e| :: e[k] != ',';
    assert e[..9] == "</backup>" && e[|e| - 1] == '"';
    assert e[1..8] == "/backup";
    FindFirst(e, {'>'}, 8);
    LinkOfOnlyEntry(e, "up");
    assert OccursAt(e, "up", 6);
  }
}
