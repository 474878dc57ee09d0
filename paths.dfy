/**
 * The lexical path rules of Go's `path` package and the suffix helpers of its
 * `strings` package, as the scaffolding code uses them: `path.Join` builds every
 * target path, `path.Base` names a new project, and `strings.HasSuffix` /
 * `strings.TrimSuffix` normalise profile names.
 *
 * `Clean` follows the package's documented rules: split on '/', drop empty and
 * "." elements, let ".." remove the element before it (or vanish at the root of
 * a rooted path, or stay at the front of a relative one), and write "." for an
 * empty relative result.
 */
module Paths {

  /** A single path element that `Clean` keeps as it is. */
  predicate Plain(e: string) {
    e != "" && e != "." && e != ".." && '/' !in e
  }

  /** A path made only of plain elements joined by single slashes. */
  predicate PlainParts(parts: seq<string>) {
    |parts| >= 1 && forall i :: 0 <= i < |parts| ==> Plain(parts[i])
  }

  /** `strings.LastIndex(s, string(c))`. */
  function LastIndexOf(s: string, c: char): (r: int)
    ensures -1 <= r < |s|
    ensures r == -1 ==> c !in s
    ensures r >= 0 ==> s[r] == c && c !in s[r + 1..]
  {
    if s == [] then -1
    else if s[|s| - 1] == c then |s| - 1
    else
      assert s == s[..|s| - 1] + [s[|s| - 1]];
      LastIndexOf(s[..|s| - 1], c)
  }

  /** `strings.Split(s, "/")`: the elements between slashes, left to right. */
  function Split(s: string): (parts: seq<string>)
    ensures |parts| >= 1
    ensures forall i :: 0 <= i < |parts| ==> '/' !in parts[i]
    decreases |s|
  {
    var j := LastIndexOf(s, '/');
    if j < 0 then [s] else Split(s[..j]) + [s[j + 1..]]
  }

  /** `strings.Join(parts, "/")`. */
  function JoinSegments(parts: seq<string>): string
  {
    if parts == [] then ""
    else if |parts| == 1 then parts[0]
    else JoinSegments(parts[..|parts| - 1]) + "/" + parts[|parts| - 1]
  }

  /** One element of `Clean`'s left-to-right pass over the elements. */
  function Step(stack: seq<string>, e: string, rooted: bool): seq<string>
  {
    if e == "" || e == "." then stack
    else if e == ".." then
      if stack != [] && stack[|stack| - 1] != ".." then stack[..|stack| - 1]
      else if rooted then stack
      else stack + [".."]
    else stack + [e]
  }

  /** The elements `Clean` keeps of `parts`. */
  function Reduce(parts: seq<string>, rooted: bool): (stack: seq<string>)
    ensures forall i :: 0 <= i < |stack| ==> stack[i] != "" && stack[i] != "."
    ensures rooted ==> forall i :: 0 <= i < |stack| ==> stack[i] != ".."
  {
    if parts == [] then []
    else Step(Reduce(parts[..|parts| - 1], rooted), parts[|parts| - 1], rooted)
  }

  /** `path.Clean`; never the empty string. */
  function Clean(p: string): (r: string)
    ensures r != ""
  {
    if p == "" then "."
    else
      var rooted := p[0] == '/';
      var body := JoinSegments(Reduce(Split(p), rooted));
      if rooted then "/" + body
      else if body == "" then "."
      else body
  }

  /** `path.Join(a, b)`: the elements after the leading empty ones, joined and cleaned. */
  function Join(a: string, b: string): string
  {
    if a != "" then Clean(a + "/" + b)
    else if b != "" then Clean(b)
    else ""
  }

  /** `path.Join(a, b, c)`. */
  function Join3(a: string, b: string, c: string): string
  {
    if a != "" then Clean(a + "/" + b + "/" + c)
    else Join(b, c)
  }

  /** `path.Base`: the last element, after trailing slashes are removed. */
  function Base(p: string): string
  {
    if p == "" then "."
    else
      var q := TrimTrailingSlashes(p);
      var i := LastIndexOf(q, '/');
      var last := q[i + 1..];
      if last == "" then "/" else last
  }

  function TrimTrailingSlashes(p: string): (q: string)
    ensures |q| <= |p| && q == p[..|q|]
    ensures q != [] ==> q[|q| - 1] != '/'
  {
    if p != [] && p[|p| - 1] == '/' then TrimTrailingSlashes(p[..|p| - 1]) else p
  }

  /** `path.Dir`: everything before the last slash, cleaned. */
  function Dir(p: string): string
  {
    Clean(p[..LastIndexOf(p, '/') + 1])
  }

  /** `strings.HasSuffix`. */
  predicate HasSuffix(s: string, suffix: string) {
    |suffix| <= |s| && s[|s| - |suffix|..] == suffix
  }

  /** `strings.TrimSuffix`. */
  function TrimSuffix(s: string, suffix: string): (r: string)
    ensures HasSuffix(s, suffix) ==> r + suffix == s
    ensures !HasSuffix(s, suffix) ==> r == s
  {
    if HasSuffix(s, suffix) then
      assert s == s[..|s| - |suffix|] + s[|s| - |suffix|..];
      s[..|s| - |suffix|]
    else s
  }

  // ---------------------------------------------------------------------------
  // Facts about the rules above, used for the scaffold's target paths and the
  // derivation of a project's name from its location.
  // ---------------------------------------------------------------------------

  /** `LastIndexOf` is characterised by its contract: any index meeting it is the result. */
  lemma LastIndexOfUnique(s: string, c: char, r: int)
    requires (r == -1 && c !in s) || (0 <= r < |s| && s[r] == c && c !in s[r + 1..])
    ensures LastIndexOf(s, c) == r
  {
  }

  /** Appending text without `c` does not move the last `c`. */
  lemma LastIndexOfAppend(s: string, t: string, c: char)
    requires c !in t
    ensures LastIndexOf(s + t, c) == LastIndexOf(s, c)
  {
    var k := LastIndexOf(s, c);
    if k >= 0 {
      assert (s + t)[k + 1..] == s[k + 1..] + t;
    }
    LastIndexOfUnique(s + t, c, k);
  }

  /** Splitting undoes joining: the elements of `s` joined by '/' give `s` back. */
  lemma {:induction false} SplitJoinRoundTrip(s: string)
    ensures JoinSegments(Split(s)) == s
    decreases |s|
  {
    var j := LastIndexOf(s, '/');
    if j >= 0 {
      var front := Split(s[..j]);
      SplitJoinRoundTrip(s[..j]);
      assert (front + [s[j + 1..]])[..|front|] == front;
      assert s == s[..j] + "/" + s[j + 1..];
    }
  }

  /** Splitting after one more slash-free element adds exactly that element. */
  lemma SplitSnoc(a: string, b: string)
    requires '/' !in b
    ensures Split(a + "/" + b) == Split(a) + [b]
  {
    var s := a + "/" + b;
    assert s[|a| + 1..] == b;
    LastIndexOfUnique(s, '/', |a|);
    assert s[..|a|] == a;
  }

  lemma JoinSegmentsSnoc(parts: seq<string>, e: string)
    requires parts != []
    ensures JoinSegments(parts + [e]) == JoinSegments(parts) + "/" + e
  {
    assert (parts + [e])[..|parts|] == parts;
  }

  /** Joining slash-free elements and splitting again gives the elements back. */
  lemma {:induction false} JoinSplitRoundTrip(parts: seq<string>)
    requires |parts| >= 1
    requires forall i :: 0 <= i < |parts| ==> '/' !in parts[i]
    ensures Split(JoinSegments(parts)) == parts
  {
    if |parts| == 1 {
      LastIndexOfUnique(parts[0], '/', -1);
    } else {
      var front := parts[..|parts| - 1];
      JoinSplitRoundTrip(front);
      JoinSegmentsSnoc(front, parts[|parts| - 1]);
      assert front + [parts[|parts| - 1]] == parts;
      SplitSnoc(JoinSegments(front), parts[|parts| - 1]);
    }
  }

  /** `Clean`'s pass keeps plain elements as they are. */
  lemma {:induction false} ReducePlain(parts: seq<string>, rooted: bool)
    requires forall i :: 0 <= i < |parts| ==> Plain(parts[i])
    ensures Reduce(parts, rooted) == parts
  {
    if parts != [] {
      ReducePlain(parts[..|parts| - 1], rooted);
      assert parts[..|parts| - 1] + [parts[|parts| - 1]] == parts;
    }
  }

  lemma {:induction false} JoinSegmentsHead(parts: seq<string>)
    requires |parts| >= 1 && parts[0] != ""
    ensures |JoinSegments(parts)| >= |parts[0]| && JoinSegments(parts)[0] == parts[0][0]
  {
    if |parts| > 1 {
      JoinSegmentsHead(parts[..|parts| - 1]);
    }
  }

  /** A path of plain elements is already clean. */
  lemma CleanPlain(parts: seq<string>)
    requires PlainParts(parts)
    ensures Clean(JoinSegments(parts)) == JoinSegments(parts)
  {
    var p := JoinSegments(parts);
    JoinSegmentsHead(parts);
    JoinSplitRoundTrip(parts);
    ReducePlain(parts, false);
  }

  /** `path.Join(d, n)` under a clean relative directory is plain concatenation. */
  lemma JoinUnderPlain(parts: seq<string>, n: string)
    requires PlainParts(parts) && Plain(n)
    ensures Join(JoinSegments(parts), n) == JoinSegments(parts) + "/" + n
  {
    JoinSegmentsHead(parts);
    JoinSegmentsSnoc(parts, n);
    CleanPlain(parts + [n]);
  }

  /** `path.Join(".", n)` is `n` for a plain file name. */
  lemma JoinDot(n: string)
    requires Plain(n)
    ensures Join(".", n) == n
  {
    var p := "." + "/" + n;
    LastIndexOfUnique(".", '/', -1);
    assert Split(".") == ["."];
    SplitSnoc(".", n);
    var parts := ["."] + [n];
    assert Split(p) == parts;
    assert parts[..1] == ["."];
    assert Reduce(["."], false) == [] by {
      assert ["."][..0] == [];
    }
    assert Reduce(parts, false) == [n];
    assert p[0] == '.';
    assert Clean(p) == n;
  }

  /** `path.Dir` of a file placed under a clean relative directory is that directory. */
  lemma DirUnderPlain(parts: seq<string>, n: string)
    requires PlainParts(parts) && Plain(n)
    ensures Dir(JoinSegments(parts) + "/" + n) == JoinSegments(parts)
  {
    var d := JoinSegments(parts);
    var p := d + "/" + n;
    assert p[|d| + 1..] == n;
    LastIndexOfUnique(p, '/', |d|);
    assert p[..|d| + 1] == d + "/" + "";
    SplitSnoc(d, "");
    JoinSplitRoundTrip(parts);
    ReducePlain(parts, false);
    JoinSegmentsHead(parts);
    assert (parts + [""])[..|parts|] == parts;
  }

  /** `path.Dir` of a bare file name is the current directory. */
  lemma DirOfPlain(n: string)
    requires Plain(n)
    ensures Dir(n) == "."
  {
    LastIndexOfUnique(n, '/', -1);
  }

  /** Cleaning `wd + "/" + n` keeps the plain last element `n` at the end, after a slash. */
  lemma CleanKeepsPlainLast(wd: string, n: string) returns (out: string)
    requires wd != "" && Plain(n)
    ensures Clean(wd + "/" + n) == out + n
    ensures out == "" || out[|out| - 1] == '/'
  {
    var p := wd + "/" + n;
    var rooted := p[0] == '/';
    ReduceSnocPlain(wd, n, rooted);
    out := CleanOfKept(p, Reduce(Split(wd), rooted), n);
  }

  /** A path whose kept elements end in `n` cleans to a prefix ending in a slash (or empty), then `n`. */
  lemma CleanOfKept(p: string, st: seq<string>, n: string) returns (out: string)
    requires p != "" && Reduce(Split(p), p[0] == '/') == st + [n]
    ensures Clean(p) == out + n
    ensures out == "" || out[|out| - 1] == '/'
  {
    var pre := if st == [] then "" else JoinSegments(st) + "/";
    var body := JoinSegments(st + [n]);
    JoinAfterPrefix(st, n);
    out := if p[0] == '/' then "/" + pre else pre;
    CleanUnfold(p, body);
    if p[0] == '/' {
      assert "/" + (pre + n) == ("/" + pre) + n;
    }
  }

  /** The elements `Clean` keeps of `wd + "/" + n` are those of `wd`, then the plain `n`. */
  lemma ReduceSnocPlain(wd: string, n: string, rooted: bool)
    requires Plain(n)
    ensures Reduce(Split(wd + "/" + n), rooted) == Reduce(Split(wd), rooted) + [n]
  {
    var front := Split(wd);
    SplitSnoc(wd, n);
    assert (front + [n])[..|front|] == front;
  }

  /** Joining kept elements and a last one: the joined front, a slash unless it is empty, then the last. */
  lemma JoinAfterPrefix(st: seq<string>, n: string)
    ensures JoinSegments(st + [n]) == (if st == [] then "" else JoinSegments(st) + "/") + n
  {
    if st != [] {
      JoinSegmentsSnoc(st, n);
    } else {
      assert st + [n] == [n];
    }
  }

  /** `Clean` of a non-empty path, in terms of the elements it keeps. */
  lemma CleanUnfold(p: string, body: string)
    requires p != "" && body != ""
    requires body == JoinSegments(Reduce(Split(p), p[0] == '/'))
    ensures Clean(p) == if p[0] == '/' then "/" + body else body
  {
  }

  /** The base of a path ending in "/" + a plain element is that element. */
  lemma BaseAfterSlash(out: string, n: string)
    requires out == "" || out[|out| - 1] == '/'
    requires Plain(n)
    ensures Base(out + n) == n
  {
    var q := out + n;
    NoTrailingSlash(q);
    LastSlashBefore(out, n);
    assert q[|out|..] == n;
  }

  /** A path that does not end in a slash has none to trim. */
  lemma NoTrailingSlash(q: string)
    requires q != [] && q[|q| - 1] != '/'
    ensures TrimTrailingSlashes(q) == q
  {
  }

  /** The last slash of `out + n` is the one that ends `out`. */
  lemma LastSlashBefore(out: string, n: string)
    requires out == "" || out[|out| - 1] == '/'
    requires '/' !in n
    ensures LastIndexOf(out + n, '/') == |out| - 1
  {
    LastIndexOfAppend(out, n, '/');
    if out != "" {
      LastIndexOfUnique(out, '/', |out| - 1);
    } else {
      LastIndexOfUnique(out, '/', -1);
    }
  }

  /** The base of `path.Join(wd, n)` is `n`, whatever the (non-empty) directory `wd`. */
  lemma BaseOfJoin(wd: string, n: string)
    requires wd != "" && Plain(n)
    ensures Base(Join(wd, n)) == n
  {
    var out := CleanKeepsPlainLast(wd, n);
    BaseAfterSlash(out, n);
  }

  /** `path.Base` yields one element: never empty, and slash-free unless it is the root. */
  lemma BaseIsOneElement(p: string)
    ensures Base(p) != ""
    ensures Base(p) != "/" ==> '/' !in Base(p)
  {
  }
}
