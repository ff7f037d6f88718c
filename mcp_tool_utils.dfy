/**
 * `McpToolFilter`: capability queries over a flat catalogue of MCP tools.
 * Every query keeps, in catalogue order, exactly the tools that satisfy one
 * per-tool criterion and wraps them in a fresh filter; the catalogue it was
 * applied to is a value and is never changed.
 */
module McpToolUtils {
  import opened Wrappers
  import opened Text

  /**
   * A tool descriptor as the MCP client adapter exposes it.
   * `tags`  - the `_meta._fastmcp.tags` entry (empty when any level is absent);
   * `meta`  - the string entries of `_meta`, such as `author` and `version`;
   * `hints` - the truth value of each top-level metadata entry, such as `readOnlyHint`.
   */
  datatype Tool = Tool(
    name: string,
    description: string,
    tags: seq<string>,
    meta: map<string, string>,
    hints: map<string, bool>)

  datatype McpToolFilter = McpToolFilter(tools: seq<Tool>)

  /** The per-tool test behind each query. */
  datatype Criterion =
    | Tags(required: seq<string>)
    | Metadata(key: string, value: string)
    | AnnotationHint(hint: string, expected: bool)
    | Name(name: string)

  /** The tool's tags after case folding. */
  function FoldedTags(t: Tool): (r: seq<string>)
    ensures |r| == |t.tags|
    ensures forall i :: 0 <= i < |r| ==> r[i] == CaseFold(t.tags[i])
  {
    seq(|t.tags|, i requires 0 <= i < |t.tags| => CaseFold(t.tags[i]))
  }

  /** Every requested tag, case-folded, is one of the tool's case-folded tags. */
  predicate HasTags(t: Tool, required: seq<string>) {
    forall k :: 0 <= k < |required| ==> CaseFold(required[k]) in FoldedTags(t)
  }

  /** `bool(tool.metadata.get(hint, False))`. */
  predicate HintValue(t: Tool, hint: string) {
    hint in t.hints && t.hints[hint]
  }

  predicate Matches(t: Tool, c: Criterion) {
    match c
    case Tags(required) => HasTags(t, required)
    case Metadata(key, value) => key in t.meta && t.meta[key] == value
    case AnnotationHint(hint, expected) => HintValue(t, hint) == expected
    case Name(name) => t.name == name
  }

  /** `a` is `b` with some elements removed, the rest in their original order. */
  ghost predicate IsSubsequence<T>(a: seq<T>, b: seq<T>)
    decreases |b|
  {
    if a == [] then true
    else if b == [] then false
    else (a[0] == b[0] && IsSubsequence(a[1..], b[1..])) || IsSubsequence(a, b[1..])
  }

  /** The loop shared by every query: keep the tools matching `c`, in order. */
  function Keep(tools: seq<Tool>, c: Criterion): (r: seq<Tool>)
    ensures |r| <= |tools|
    ensures forall t :: t in r <==> t in tools && Matches(t, c)
  {
    if tools == [] then []
    else (if Matches(tools[0], c) then [tools[0]] else []) + Keep(tools[1..], c)
  }

  lemma {:induction false} KeepIsSubsequence(tools: seq<Tool>, c: Criterion)
    ensures IsSubsequence(Keep(tools, c), tools)
  {
    if tools != [] {
      KeepIsSubsequence(tools[1..], c);
      var rest := Keep(tools[1..], c);
      if Matches(tools[0], c) {
        assert Keep(tools, c) == [tools[0]] + rest;
        assert ([tools[0]] + rest)[1..] == rest;
      } else {
        assert Keep(tools, c) == rest;
        SkipHead(rest, tools);
      }
    }
  }

  /** A subsequence of the tail is a subsequence of the whole. */
  lemma {:induction false} SkipHead(a: seq<Tool>, b: seq<Tool>)
    requires b != [] && IsSubsequence(a, b[1..])
    ensures IsSubsequence(a, b)
  {
  }

  /** Subsequences compose. */
  lemma {:induction false} SubsequenceTransitive(a: seq<Tool>, b: seq<Tool>, c: seq<Tool>)
    requires IsSubsequence(a, b) && IsSubsequence(b, c)
    ensures IsSubsequence(a, c)
    decreases |c|
  {
    if a != [] {
      assert c != [];
      if b[0] == c[0] && IsSubsequence(b[1..], c[1..]) {
        if a[0] == b[0] && IsSubsequence(a[1..], b[1..]) {
          SubsequenceTransitive(a[1..], b[1..], c[1..]);
        } else {
          SubsequenceTransitive(a, b[1..], c[1..]);
        }
      } else {
        SubsequenceTransitive(a, b, c[1..]);
      }
    }
  }

  /** When every tool matches, nothing is dropped. */
  lemma {:induction false} KeepAll(tools: seq<Tool>, c: Criterion)
    requires forall i :: 0 <= i < |tools| ==> Matches(tools[i], c)
    ensures Keep(tools, c) == tools
  {
    if tools != [] {
      KeepAll(tools[1..], c);
    }
  }

  /** Two queries applied in either order give the same list. */
  lemma {:induction false} KeepCommutes(tools: seq<Tool>, c1: Criterion, c2: Criterion)
    ensures Keep(Keep(tools, c1), c2) == Keep(Keep(tools, c2), c1)
  {
    if tools != [] {
      var h, tail := tools[0], tools[1..];
      assert tools == [h] + tail;
      KeepCommutes(tail, c1, c2);
      KeepTwice(h, tail, c1, c2);
      KeepTwice(h, tail, c2, c1);
    }
  }

  /** Two queries on a list led by `h`: `h` survives iff it matches both. */
  lemma {:induction false} KeepTwice(h: Tool, tail: seq<Tool>, c: Criterion, d: Criterion)
    ensures Keep(Keep([h] + tail, c), d)
      == (if Matches(h, c) && Matches(h, d) then [h] else []) + Keep(Keep(tail, c), d)
  {
    assert ([h] + tail)[1..] == tail;
    var k := Keep(tail, c);
    if Matches(h, c) {
      assert Keep([h] + tail, c) == [h] + k;
      assert ([h] + k)[1..] == k;
    } else {
      assert Keep([h] + tail, c) == k;
    }
  }

  /** Applying the same query twice equals applying it once. */
  lemma {:induction false} KeepIdempotent(tools: seq<Tool>, c: Criterion)
    ensures Keep(Keep(tools, c), c) == Keep(tools, c)
  {
    var once := Keep(tools, c);
    forall i | 0 <= i < |once| ensures Matches(once[i], c) {
      assert once[i] in once;
    }
    KeepAll(once, c);
  }

  /** One query applied to a filter. */
  function Select(f: McpToolFilter, c: Criterion): (r: McpToolFilter)
    ensures forall t :: t in r.tools <==> t in f.tools && Matches(t, c)
    ensures IsSubsequence(r.tools, f.tools)
  {
    KeepIsSubsequence(f.tools, c);
    McpToolFilter(Keep(f.tools, c))
  }

  /** `by_tags`: tools carrying every requested tag, compared case-insensitively; no tags keeps all. */
  function ByTags(f: McpToolFilter, tags: seq<string>): (r: McpToolFilter)
    ensures forall t :: t in r.tools <==> t in f.tools && HasTags(t, tags)
    ensures IsSubsequence(r.tools, f.tools)
    ensures tags == [] ==> r == f
  {
    if tags == [] then KeepAll(f.tools, Tags(tags)); Select(f, Tags(tags))
    else Select(f, Tags(tags))
  }

  /** `by_metadata`: tools whose `_meta[key]` is present and equal to `value`. */
  function ByMetadata(f: McpToolFilter, key: string, value: string): (r: McpToolFilter)
    ensures forall t :: t in r.tools <==> t in f.tools && key in t.meta && t.meta[key] == value
    ensures IsSubsequence(r.tools, f.tools)
  {
    Select(f, Metadata(key, value))
  }

  /** `by_author`: the metadata query on the key `author`. */
  function ByAuthor(f: McpToolFilter, author: string): (r: McpToolFilter)
    ensures r == ByMetadata(f, "author", author)
    ensures forall t :: t in r.tools <==> t in f.tools && "author" in t.meta && t.meta["author"] == author
  {
    ByMetadata(f, "author", author)
  }

  /** `by_annotation_hint`: tools whose hint, absent meaning false, equals `value`. */
  function ByAnnotationHint(f: McpToolFilter, hint: string, value: bool): (r: McpToolFilter)
    ensures forall t :: t in r.tools <==> t in f.tools && HintValue(t, hint) == value
    ensures !value ==> forall t :: t in f.tools && hint !in t.hints ==> t in r.tools
    ensures IsSubsequence(r.tools, f.tools)
  {
    Select(f, AnnotationHint(hint, value))
  }

  /** `by_read_only`: the annotation query on `readOnlyHint`. */
  function ByReadOnly(f: McpToolFilter, isReadOnly: bool): (r: McpToolFilter)
    ensures r == ByAnnotationHint(f, "readOnlyHint", isReadOnly)
    ensures !isReadOnly ==> forall t :: t in f.tools && "readOnlyHint" !in t.hints ==> t in r.tools
  {
    ByAnnotationHint(f, "readOnlyHint", isReadOnly)
  }

  /** `by_name`: exactly the tools called `name`. */
  function ByName(f: McpToolFilter, name: string): (r: McpToolFilter)
    ensures forall t :: t in r.tools <==> t in f.tools && t.name == name
    ensures IsSubsequence(r.tools, f.tools)
  {
    Select(f, Name(name))
  }

  /** `get_all`: the view's tools, whose head is what `get_first` returns. */
  function GetAll(f: McpToolFilter): (r: seq<Tool>)
    ensures r == [] <==> GetFirst(f) == None
    ensures r != [] ==> GetFirst(f) == Some(r[0])
    ensures forall c :: Select(f, c).tools == Keep(r, c)
  {
    f.tools
  }

  /** `get_first`: the first tool of the view, or `None` on an empty view; it never fails. */
  function GetFirst(f: McpToolFilter): (r: Option<Tool>)
    ensures r == None <==> f.tools == []
    ensures r.Some? ==> r.value == f.tools[0]
  {
    if f.tools != [] then Some(f.tools[0]) else None
  }

  /** Two queries commute; this is `by_tags(T).by_author(A) == by_author(A).by_tags(T)` and all its siblings. */
  lemma FiltersCommute(f: McpToolFilter, c1: Criterion, c2: Criterion)
    ensures Select(Select(f, c1), c2) == Select(Select(f, c2), c1)
  {
    KeepCommutes(f.tools, c1, c2);
  }

  /** Every query is idempotent. */
  lemma FilterIdempotent(f: McpToolFilter, c: Criterion)
    ensures Select(Select(f, c), c) == Select(f, c)
  {
    KeepIdempotent(f.tools, c);
  }

  /** The first tool found by name is a catalogue tool of that name, and it exists iff one does. */
  lemma GetFirstByName(f: McpToolFilter, name: string)
    ensures GetFirst(ByName(f, name)).Some? <==> exists t :: t in f.tools && t.name == name
    ensures GetFirst(ByName(f, name)).Some? ==>
      GetFirst(ByName(f, name)).value in f.tools && GetFirst(ByName(f, name)).value.name == name
  {
    var r := ByName(f, name);
    if r.tools != [] {
      assert r.tools[0] in r.tools;
    }
  }
}
