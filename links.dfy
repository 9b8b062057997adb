/**
 * Search of an RFC 5988 `Link` header for a relation (`_get_link`).
 * The search is textual: the header is split on every comma, each entry is
 * stripped, and the first entry containing the relation name anywhere wins.
 */
module Links {
  import opened Wrappers
  import opened Text

  /** What `_get_link` gives: `None`, the URL text, or the `ValueError` raised by `index('>')`. */
  datatype LinkResult = NoLink | Link(url: string) | MissingBracket

  /** `[link.strip() for link in parts]` */
  function StripAll(parts: seq<string>): (entries: seq<string>)
    ensures |entries| == |parts|
  {
    if |parts| == 0 then [] else [Strip(parts[0])] + StripAll(parts[1..])
  }

  /** Entry `i` is piece `i` stripped, so it holds no character the piece lacks. */
  lemma {:induction false} StripAllAt(parts: seq<string>, i: nat)
    requires i < |parts|
    ensures StripAll(parts)[i] == Strip(parts[i])
  {
    if i > 0 {
      StripAllAt(parts[1..], i - 1);
    }
  }

  /** The entries of a `Link` header: `[link.strip() for link in (header or '').split(',')]`. */
  function Entries(header: Option<string>): (entries: seq<string>)
    ensures |entries| >= 1
  {
    StripAll(Split(header.GetOr(""), ','))
  }

  /** No entry holds a comma. */
  lemma EntriesWithoutComma(header: Option<string>)
    ensures forall i :: 0 <= i < |Entries(header)| ==> ',' !in Entries(header)[i]
  {
    var parts := Split(header.GetOr(""), ',');
    forall i, c | 0 <= i < |parts| && c in Entries(header)[i] ensures c != ',' {
      StripAllAt(parts, i);
      StripChars(parts[i], c);
    }
  }

  /** `link[1:link.index('>')]`: from index 1 up to the first `>`; empty when `>` comes first. */
  function Bracketed(link: string): (r: LinkResult)
    ensures r != NoLink
    ensures r.MissingBracket? <==> '>' !in link
    ensures r.Link? ==> '>' !in r.url
    ensures r.Link? ==> forall c :: c in r.url ==> c in link
  {
    match Find(link, {'>'})
    case None => MissingBracket
    case Some(k) => if k == 0 then Link("") else Link(link[1..k])
  }

  /** The outcome for the first entry that contains `rel`. */
  function FirstLink(entries: seq<string>, rel: string): LinkResult
  {
    if |entries| == 0 then NoLink
    else if Contains(entries[0], rel) then Bracketed(entries[0])
    else FirstLink(entries[1..], rel)
  }

  /** `_get_link(header, rel)` */
  function FindLink(header: Option<string>, rel: string): LinkResult {
    FirstLink(Entries(header), rel)
  }

  /** `_get_link` as the source writes it: a loop over the entries with an early return. */
  method GetLink(header: Option<string>, rel: string) returns (r: LinkResult)
    ensures r == FindLink(header, rel)
  {
    var links := Split(header.GetOr(""), ',');
    ghost var entries := Entries(header);
    var i := 0;
    while i < |links|
      invariant 0 <= i <= |links| == |entries|
      invariant FirstLink(entries[i..], rel) == FindLink(header, rel)
    {
      var link := Strip(links[i]);
      StripAllAt(links, i);
      assert entries[i..][0] == link && entries[i..][1..] == entries[i + 1..];
      if Contains(link, rel) {
        return Bracketed(link);
      }
      i := i + 1;
    }
    return NoLink;
  }

  /** The index of the first entry containing `rel`, if there is one. */
  predicate FirstMatchAt(entries: seq<string>, rel: string, i: int) {
    0 <= i < |entries| && Contains(entries[i], rel)
    && forall j :: 0 <= j < i ==> !Contains(entries[j], rel)
  }

  /**
   * The search finds nothing exactly when no entry contains the relation, and
   * otherwise takes the text of the first entry that does.
   */
  lemma {:induction false} FirstLinkIsFirstMatch(entries: seq<string>, rel: string)
    ensures FirstLink(entries, rel) == NoLink <==> forall j :: 0 <= j < |entries| ==> !Contains(entries[j], rel)
    ensures forall i :: FirstMatchAt(entries, rel, i) ==> FirstLink(entries, rel) == Bracketed(entries[i])
  {
    if |entries| > 0 {
      FirstLinkIsFirstMatch(entries[1..], rel);
      if !Contains(entries[0], rel) {
        forall i | FirstMatchAt(entries, rel, i)
          ensures FirstLink(entries, rel) == Bracketed(entries[i])
        {
          assert FirstMatchAt(entries[1..], rel, i - 1);
        }
        assert (forall j :: 0 <= j < |entries| ==> !Contains(entries[j], rel))
          <==> (forall j :: 0 <= j < |entries| - 1 ==> !Contains(entries[1..][j], rel));
      }
    }
  }

  /** A found link URL contains neither `,` nor `>`. */
  lemma {:induction false} FirstLinkClean(entries: seq<string>, rel: string)
    requires forall i :: 0 <= i < |entries| ==> ',' !in entries[i]
    ensures FirstLink(entries, rel).Link? ==> ',' !in FirstLink(entries, rel).url && '>' !in FirstLink(entries, rel).url
  {
    if |entries| > 0 && !Contains(entries[0], rel) {
      FirstLinkClean(entries[1..], rel);
    }
  }

  /** `_get_link` never returns text holding a `,` or a `>`. */
  lemma LinkUrlClean(header: Option<string>, rel: string)
    ensures FindLink(header, rel).Link? ==> ',' !in FindLink(header, rel).url && '>' !in FindLink(header, rel).url
  {
    EntriesWithoutComma(header);
    FirstLinkClean(Entries(header), rel);
  }

  /**
   * With no header, a non-empty relation finds nothing; the empty relation
   * matches the one empty entry, whose missing `>` raises.
   */
  lemma NoHeader(rel: string)
    ensures rel != "" ==> FindLink(None, rel) == NoLink
    ensures FindLink(None, "") == MissingBracket
  {
    var entries := Entries(None);
    assert Split("", ',') == [""];
    assert entries == [""];
    assert OccursAt("", "", 0);
    if rel != "" {
      MissingFirstChar("", rel);
      assert entries[1..] == [];
      assert FirstLink(entries, rel) == FirstLink([], rel);
    }
  }
}
