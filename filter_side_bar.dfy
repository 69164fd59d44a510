/**
 * The library's filter sidebar: the tag slug, the search and tag handlers
 * over the URL's query parameters, and which menu entry is highlighted.
 */
module FilterSideBar {
  import opened Wrappers
  import opened Strings

  /** The query parameters, one value per name. */
  type Params = map<string, string>

  /** The menu entries, as the labels the user sees. */
  const MenuItems: seq<string> := ["recommended for you", "in progress", "saved"]

  /** The tag of the "All content" entry. */
  const AllTag: string := "all"

  predicate NoWhitespace(s: string) {
    forall i :: 0 <= i < |s| ==> !IsWhitespace(s[i])
  }

  /** `s.replace(/\s+/g, "-")`: every run of white space becomes one dash. */
  function DashRuns(s: string): (r: string)
    ensures NoWhitespace(r)
    decreases |s|
  {
    if s == [] then []
    else if IsWhitespace(s[0]) then
      "-" + DashRuns(TrimStart(s))
    else [s[0]] + DashRuns(s[1..])
  }

  /** Text without white space passes through unchanged. */
  lemma {:induction false} DashRunsKeepsPlainText(s: string)
    requires NoWhitespace(s)
    ensures DashRuns(s) == s
    decreases |s|
  {
    if s != [] {
      DashRunsKeepsPlainText(s[1..]);
    }
  }

  /** Removing a blank stretch in front of a non-space leaves exactly what follows it. */
  lemma TrimStartBlank(w: string, b: string)
    requires IsBlank(w)
    requires b == [] || !IsWhitespace(b[0])
    ensures TrimStart(w + b) == b
  {
    var s := w + b;
    TrimStartSuffix(s);
    assert s[|s| - |b|..] == b;
  }

  /** The dash replaces the whole run: plain text, a blank run, then text starting with a non-space. */
  lemma {:induction false} DashRunsJoin(a: string, w: string, b: string)
    requires NoWhitespace(a) && w != [] && IsBlank(w)
    requires b == [] || !IsWhitespace(b[0])
    ensures DashRuns(a + w + b) == a + "-" + DashRuns(b)
    decreases |a|
  {
    if a == [] {
      assert a + w + b == w + b;
      TrimStartBlank(w, b);
    } else {
      assert (a + w + b)[1..] == a[1..] + w + b;
      DashRunsJoin(a[1..], w, b);
    }
  }

  /** The tag slug: dashes for white space, then lower case. */
  function Slug(tag: string): (r: string)
    ensures NoWhitespace(r)
    ensures |r| <= |tag|
  {
    var d := DashRuns(tag);
    DashRunsNoLonger(tag);
    ToLower(d)
  }

  lemma {:induction false} DashRunsNoLonger(s: string)
    ensures |DashRuns(s)| <= |s|
    decreases |s|
  {
    if s != [] {
      if IsWhitespace(s[0]) {
        DashRunsNoLonger(TrimStart(s));
      } else {
        DashRunsNoLonger(s[1..]);
      }
    }
  }

  /** A slug is its own slug. */
  lemma SlugIdempotent(tag: string)
    ensures Slug(Slug(tag)) == Slug(tag)
  {
    var s := Slug(tag);
    DashRunsKeepsPlainText(s);
    ToLowerIdempotent(DashRuns(tag));
  }

  predicate HasNoUpper(s: string) {
    forall i :: 0 <= i < |s| ==> !('A' <= s[i] <= 'Z')
  }

  lemma ToLowerKeepsLower(s: string)
    requires HasNoUpper(s)
    ensures ToLower(s) == s
  {
  }

  /** Lower-case text without white space is already a slug. */
  lemma SlugOfPlainLower(s: string)
    requires NoWhitespace(s) && HasNoUpper(s)
    ensures Slug(s) == s
  {
    DashRunsKeepsPlainText(s);
    ToLowerKeepsLower(s);
  }

  /** One space between two words becomes one dash. */
  lemma DashRunsTwoWords(a: string, b: string)
    requires NoWhitespace(a) && NoWhitespace(b)
    ensures DashRuns(a + " " + b) == a + "-" + b
  {
    assert IsBlank(" ");
    if b != [] {
      assert !IsWhitespace(b[0]);
    }
    DashRunsJoin(a, " ", b);
    DashRunsKeepsPlainText(b);
  }

  /** Joining two plain lower-case words with a dash keeps the text plain and lower-case. */
  lemma DashJoinPlain(a: string, b: string)
    requires NoWhitespace(a) && HasNoUpper(a) && NoWhitespace(b) && HasNoUpper(b)
    ensures NoWhitespace(a + "-" + b) && HasNoUpper(a + "-" + b)
  {
    var s := a + "-" + b;
    forall i | 0 <= i < |s| ensures !IsWhitespace(s[i]) && !('A' <= s[i] <= 'Z') {
      if i < |a| {
        assert s[i] == a[i];
      } else if i > |a| {
        assert s[i] == b[i - |a| - 1];
      }
    }
  }

  /** Two lower-case words around one space become the words around one dash. */
  lemma SlugOfTwoWords(a: string, b: string)
    requires NoWhitespace(a) && HasNoUpper(a) && NoWhitespace(b) && HasNoUpper(b)
    ensures Slug(a + " " + b) == a + "-" + b
  {
    DashRunsTwoWords(a, b);
    DashJoinPlain(a, b);
    ToLowerKeepsLower(a + "-" + b);
  }

  /** A slug of three lower-case words separated by single spaces. */
  lemma SlugOfThreeWords(a: string, b: string, c: string)
    requires NoWhitespace(a) && HasNoUpper(a) && NoWhitespace(b) && HasNoUpper(b) && NoWhitespace(c) && HasNoUpper(c)
    requires b != []
    ensures Slug(a + " " + b + " " + c) == a + "-" + b + "-" + c
  {
    var rest := b + " " + c;
    var bc := b + "-" + c;
    assert a + " " + b + " " + c == a + " " + rest;
    assert a + "-" + b + "-" + c == a + "-" + bc;
    DashRunsTwoWords(b, c);
    assert IsBlank(" ");
    assert rest[0] == b[0];
    DashRunsJoin(a, " ", rest);
    DashJoinPlain(b, c);
    DashJoinPlain(a, bc);
    ToLowerKeepsLower(a + "-" + bc);
  }

  /** The first menu entry's slug. */
  lemma RecommendedSlug(item: string, a: string, b: string, c: string)
    requires a == "recommended" && b == "for" && c == "you" && item == a + " " + b + " " + c
    ensures Slug(item) == a + "-" + b + "-" + c
  {
    SlugOfThreeWords(a, b, c);
  }

  /** The second menu entry's slug. */
  lemma InProgressSlug(item: string, a: string, b: string)
    requires a == "in" && b == "progress" && item == a + " " + b
    ensures Slug(item) == a + "-" + b
  {
    SlugOfTwoWords(a, b);
  }

  /** Single lower-case words: the third entry and "All content"'s tag. */
  lemma OneWordSlug(item: string)
    requires item == "saved" || item == AllTag
    ensures Slug(item) == item
  {
    SlugOfPlainLower(item);
  }

  /** `handleTagChange`'s new parameters: `tag` overwritten with the slug, every other parameter kept. */
  function WithTag(params: Params, tag: string): (r: Params)
    ensures "tag" in r && r["tag"] == Slug(tag)
    ensures forall k :: k != "tag" ==> (k in r <==> k in params) && (k in params ==> r[k] == params[k])
  {
    params["tag" := Slug(tag)]
  }

  /** `handleSearch`'s new parameters: `search` set to a non-empty query or deleted for an empty one. */
  function WithSearch(params: Params, query: string): (r: Params)
    ensures query != "" ==> "search" in r && r["search"] == query
    ensures query == "" ==> "search" !in r
    ensures forall k :: k != "search" ==> (k in r <==> k in params) && (k in params ==> r[k] == params[k])
  {
    if query != "" then params["search" := query] else params - {"search"}
  }

  /** The initial highlighted tag: the URL's `tag`, which is a slug. */
  function InitialActiveTag(params: Params): Option<string> {
    if "tag" in params then Some(params["tag"]) else None
  }

  /**
   * After a reload, the URL holds the slug while the menu compares raw labels,
   * so a label with white space in it is never highlighted.
   */
  lemma UrlTagNeverHighlightsSpacedLabel(params: Params, item: string)
    requires exists i :: 0 <= i < |item| && IsWhitespace(item[i])
    requires "tag" in params && params["tag"] == Slug(item)
    ensures InitialActiveTag(params) != Some(item)
  {
  }

  /** The sidebar's own state. */
  class SideBar {
    var activeTag: Option<string>
    var loading: bool

    constructor (params: Params)
      ensures activeTag == InitialActiveTag(params) && !loading
    {
      activeTag := InitialActiveTag(params);
      loading := false;
    }

    /** An entry is highlighted when the active tag equals its raw label. */
    predicate Highlighted(item: string)
      reads this
    {
      activeTag == Some(item)
    }

    /** `handleTagChange`: pushes the new parameters and remembers the raw label. */
    method HandleTagChange(params: Params, tag: string) returns (pushed: Params)
      modifies this
      ensures pushed == WithTag(params, tag)
      ensures activeTag == Some(tag) && Highlighted(tag) && !loading
    {
      loading := true;
      pushed := WithTag(params, tag);
      activeTag := Some(tag);
      loading := false;
    }
  }
}
