/**
 * The part of Go's `text/template` that the scaffold's templates use, on
 * templates that are already parsed: literal text, `{{.Field}}` interpolation of
 * a string field of the value struct, and `{{if .Field}} ... {{end}}` around a
 * block that is emitted only when the field is non-empty.
 *
 * The value struct a file kind passes to the template is its `Context`: the
 * names of its exported fields and their string values (a nil pointer reads as
 * the empty string, which `if` treats as false like a nil one). Referring to a
 * field the struct does not have is an execution error, as in `text/template`.
 */
module Render {
  import opened Wrappers

  datatype Segment =
    | Lit(text: string)
    | Field(name: string)
    | IfNonEmpty(cond: string, body: seq<Segment>)

  type Template = seq<Segment>

  type Context = map<string, string>

  /** `text/template`'s "can't evaluate field" execution error. */
  datatype ExecError = UndefinedField(name: string)

  /** Every field name a template refers to, in a condition or an interpolation. */
  function Mentions(t: Template): set<string>
  {
    if t == [] then {}
    else
      var here := match t[0]
        case Lit(_) => {}
        case Field(n) => {n}
        case IfNonEmpty(n, body) => {n} + Mentions(body);
      here + Mentions(t[1..])
  }

  /** A template with no actions at all: its text is emitted verbatim. */
  predicate Verbatim(t: Template)
  {
    forall i :: 0 <= i < |t| ==> t[i].Lit?
  }

  /** The text of a template's literal segments, in order. */
  function LiteralText(t: Template): string
  {
    if t == [] then "" else (if t[0].Lit? then t[0].text else "") + LiteralText(t[1..])
  }

  /**
   * Executes a template against a context, left to right; the first undefined
   * field stops execution. An error only ever names a field the template
   * mentions and the context lacks, and a context that defines every mentioned
   * field cannot make execution fail.
   */
  function Execute(t: Template, ctx: Context): (r: Result<string, ExecError>)
    ensures r.Failure? ==> r.error.name in Mentions(t) && r.error.name !in ctx
    ensures Mentions(t) <= ctx.Keys ==> r.Success?
  {
    if t == [] then Success("")
    else
      var head: Result<string, ExecError> := match t[0]
        case Lit(s) => Success(s)
        case Field(n) => if n in ctx then Success(ctx[n]) else Failure(UndefinedField(n))
        case IfNonEmpty(n, body) =>
          if n !in ctx then Failure(UndefinedField(n))
          else if ctx[n] == "" then Success("")
          else Execute(body, ctx);
      Then(head, Execute(t[1..], ctx))
  }

  /** Output of two pieces executed one after the other: the first error, or both texts. */
  function Then(first: Result<string, ExecError>, second: Result<string, ExecError>): Result<string, ExecError>
  {
    if first.Failure? then first
    else if second.Failure? then second
    else Success(first.value + second.value)
  }

  /** Executing two templates back to back is executing their concatenation. */
  lemma {:induction false} ExecuteAppend(a: Template, b: Template, ctx: Context)
    ensures Execute(a + b, ctx) == Then(Execute(a, ctx), Execute(b, ctx))
  {
    if a != [] {
      assert (a + b)[0] == a[0];
      assert (a + b)[1..] == a[1..] + b;
      ExecuteAppend(a[1..], b, ctx);
      var ra, rb := Execute(a[1..], ctx), Execute(b, ctx);
      if ra.Success? && rb.Success? {
        forall h: string ensures h + (ra.value + rb.value) == (h + ra.value) + rb.value {
        }
      }
    } else {
      assert a + b == b;
      var rb := Execute(b, ctx);
      if rb.Success? {
        assert "" + rb.value == rb.value;
      }
    }
  }

  /** A template without actions renders to its text, whatever the values. */
  lemma {:induction false} ExecuteVerbatim(t: Template, ctx: Context)
    requires Verbatim(t)
    ensures Execute(t, ctx) == Success(LiteralText(t))
  {
    if t != [] {
      ExecuteVerbatim(t[1..], ctx);
    }
  }

  /** Output depends only on the fields the template mentions. */
  lemma {:induction false} ExecuteDependsOnMentions(t: Template, c1: Context, c2: Context)
    requires forall n :: n in Mentions(t) ==> (n in c1 <==> n in c2) && (n in c1 ==> c1[n] == c2[n])
    ensures Execute(t, c1) == Execute(t, c2)
  {
    if t != [] {
      ExecuteDependsOnMentions(t[1..], c1, c2);
      match t[0]
      case Lit(_) =>
      case Field(n) =>
      case IfNonEmpty(n, body) =>
        ExecuteDependsOnMentions(body, c1, c2);
    }
  }

  // --- templates of literal text and interpolations ---

  /**
   * The template `lits[0]{{.fields[0]}}lits[1]...{{.fields[n-1]}}lits[n]`: literal
   * pieces with one interpolation between each two.
   */
  function Interleave(lits: seq<string>, fields: seq<string>): Template
    requires |lits| == |fields| + 1
  {
    if fields == [] then [Lit(lits[0])]
    else [Lit(lits[0]), Field(fields[0])] + Interleave(lits[1..], fields[1..])
  }

  /** The text `lits[0] + values[0] + lits[1] + ... + lits[n]`. */
  function Splice(lits: seq<string>, values: seq<string>): string
    requires |lits| == |values| + 1
  {
    if values == [] then lits[0]
    else lits[0] + values[0] + Splice(lits[1..], values[1..])
  }

  /** The values a context gives a sequence of field names, in order (absent names read as ""). */
  function Lookup(fields: seq<string>, ctx: Context): (values: seq<string>)
    ensures |values| == |fields|
    ensures forall i :: 0 <= i < |fields| && fields[i] in ctx ==> values[i] == ctx[fields[i]]
  {
    if fields == [] then []
    else [if fields[0] in ctx then ctx[fields[0]] else ""] + Lookup(fields[1..], ctx)
  }

  /**
   * When the context defines every field, executing an interleaved template
   * splices the fields' values between the literal pieces.
   */
  lemma {:induction false} ExecuteInterleave(lits: seq<string>, fields: seq<string>, ctx: Context)
    requires |lits| == |fields| + 1
    requires forall i :: 0 <= i < |fields| ==> fields[i] in ctx
    ensures Execute(Interleave(lits, fields), ctx) == Success(Splice(lits, Lookup(fields, ctx)))
  {
    if fields == [] {
      var t := Interleave(lits, fields);
      assert t[1..] == [];
      assert lits[0] + "" == lits[0];
    } else {
      var rest := Interleave(lits[1..], fields[1..]);
      ExecuteInterleave(lits[1..], fields[1..], ctx);
      var t := [Lit(lits[0]), Field(fields[0])] + rest;
      assert t[1..][1..] == rest;
      var v := ctx[fields[0]];
      var tail := Splice(lits[1..], Lookup(fields[1..], ctx));
      assert Execute(t[1..], ctx) == Success(v + tail);
      assert Lookup(fields, ctx)[1..] == Lookup(fields[1..], ctx);
      assert lits[0] + (v + tail) == lits[0] + v + tail;
    }
  }

  /** A conditional block whose field is empty emits nothing, whatever its body. */
  lemma ExecuteEmptyCondition(n: string, body: Template, ctx: Context)
    requires n in ctx && ctx[n] == ""
    ensures Execute([IfNonEmpty(n, body)], ctx) == Success("")
  {
    var t := [IfNonEmpty(n, body)];
    assert t[1..] == [];
    assert Execute(t[1..], ctx) == Success("");
    assert "" + "" == "";
  }

  /** A conditional block whose field is non-empty emits its body. */
  lemma ExecuteNonEmptyCondition(n: string, body: Template, ctx: Context)
    requires n in ctx && ctx[n] != ""
    ensures Execute([IfNonEmpty(n, body)], ctx) == Execute(body, ctx)
  {
    var r := Execute(body, ctx);
    assert [IfNonEmpty(n, body)][1..] == [];
    if r.Success? {
      assert r.value + "" == r.value;
    }
  }
}
