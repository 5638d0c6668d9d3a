/** Chains of setter calls, `builder.path(..).method(..).parts(..)...`, as
    sequences of setter invocations applied left to right. A chain stops at
    the first setter that throws; otherwise every attribute no setter in the
    chain writes keeps its value, and the encoding is the one chosen by the
    last `parts` or `fields` call.
 */
module BuilderChains {
  import opened Results
  import opened Types
  import opened RequestBuilder

  /** One setter invocation with its argument. */
  datatype Setter =
    | Path(path: Option<string>)
    | Method(m: Option<HttpMethod>)
    | Tag(tag: Option<Obj>)
    | Body(body: Option<Obj>)
    | QueryParams(query: Option<seq<Query>>)
    | Headers(headers: Option<map<string, string>>)
    | Parts(parts: Option<seq<Part>>)
    | Fields(fields: Option<seq<Field>>)
    | ResponseType(responseType: Option<JType>)

  /** The attribute a setter is named after. */
  function Target(op: Setter): Attr {
    match op
    case Path(_) => PathAttr
    case Method(_) => MethodAttr
    case Tag(_) => TagAttr
    case Body(_) => BodyAttr
    case QueryParams(_) => QueryAttr
    case Headers(_) => HeadersAttr
    case Parts(_) => PartsAttr
    case Fields(_) => FieldsAttr
    case ResponseType(_) => ResponseTypeAttr
  }

  /** The encoding a setter switches to, if it switches one. */
  function EncodingChosen(op: Setter): Option<BodyEncoding> {
    match op
    case Parts(_) => Some(MULTIPART)
    case Fields(_) => Some(FORM_URL_ENCODED)
    case _ => None
  }

  /** Every attribute a setter may change. */
  function Writes(op: Setter): set<Attr> {
    if EncodingChosen(op).Some? then {Target(op), EncodingAttr} else {Target(op)}
  }

  /** The setter throws: it refuses null and was given null. */
  predicate Rejects(op: Setter) {
    match op
    case Method(m) => m.None?
    case QueryParams(q) => q.None?
    case Headers(h) => h.None?
    case Parts(ps) => ps.None?
    case Fields(fs) => fs.None?
    case _ => false
  }

  /** The builder holds the setter's argument in the setter's attribute
      (unwrapped, for the setters that refuse null). */
  predicate Stored(b: Builder, op: Setter) {
    match op
    case Path(p) => b.path == p
    case Method(m) => b.httpMethod == m
    case Tag(t) => b.tag == t
    case Body(o) => b.body == o
    case QueryParams(q) => q.Some? && b.query == q.value
    case Headers(h) => h.Some? && b.headers == h.value
    case Parts(ps) => ps.Some? && b.parts == ps.value
    case Fields(fs) => fs.Some? && b.fields == fs.value
    case ResponseType(t) => b.responseType == t
  }

  /** Invokes one setter on the builder. */
  function Apply(b: Builder, op: Setter): (r: Result<Builder, Error>)
    ensures r.Failure? <==> Rejects(op)
    ensures r.Failure? ==> r.error == NullArgument(Target(op))
    ensures r.Success? ==> Stored(r.value, op)
    ensures r.Success? ==> AgreeOutside(b, r.value, Writes(op))
    ensures r.Success? && EncodingChosen(op).Some? ==>
      r.value.bodyEncoding == EncodingChosen(op).value
  {
    match op
    case Path(p) => Success(SetPath(b, p))
    case Method(m) => SetMethod(b, m)
    case Tag(t) => Success(SetTag(b, t))
    case Body(o) => Success(SetBody(b, o))
    case QueryParams(q) => SetQueryParams(b, q)
    case Headers(h) => SetHeaders(b, h)
    case Parts(ps) => SetParts(b, ps)
    case Fields(fs) => SetFields(b, fs)
    case ResponseType(t) => Success(SetResponseType(b, t))
  }

  /** Invokes the setters in order; the first exception ends the chain. */
  function ApplyAll(b: Builder, ops: seq<Setter>): Result<Builder, Error>
    decreases |ops|
  {
    if ops == [] then
      Success(b)
    else
      var next :- Apply(b, ops[0]);
      ApplyAll(next, ops[1..])
  }

  /** The attributes some setter of the chain may change. */
  function WrittenBy(ops: seq<Setter>): set<Attr> {
    set i, a | 0 <= i < |ops| && a in Writes(ops[i]) :: a
  }

  /** The encoding after the chain, read from its end: the choice of the last
      `parts` or `fields` call, or `init` when there is none. */
  function LastEncoding(init: BodyEncoding, ops: seq<Setter>): BodyEncoding
    decreases |ops|
  {
    if ops == [] then
      init
    else
      match EncodingChosen(ops[|ops| - 1])
      case Some(e) => e
      case None => LastEncoding(init, ops[..|ops| - 1])
  }

  /** The chain throws exactly when one of its setters is given a null it
      refuses, and the exception is the one of the first such setter. */
  lemma {:induction false} ChainFailure(b: Builder, ops: seq<Setter>)
    ensures ApplyAll(b, ops).Failure? <==> exists i :: 0 <= i < |ops| && Rejects(ops[i])
    ensures ApplyAll(b, ops).Failure? ==>
      exists i :: && 0 <= i < |ops| && Rejects(ops[i])
                  && (forall j :: 0 <= j < i ==> !Rejects(ops[j]))
                  && ApplyAll(b, ops).error == NullArgument(Target(ops[i]))
    decreases |ops|
  {
    if ops != [] {
      var first := Apply(b, ops[0]);
      if first.Success? {
        var rest := ops[1..];
        ChainFailure(first.value, rest);
        assert ApplyAll(b, ops) == ApplyAll(first.value, rest);
        assert forall i :: 0 <= i < |rest| ==> rest[i] == ops[i + 1];
        if ApplyAll(b, ops).Failure? {
          var i :| && 0 <= i < |rest| && Rejects(rest[i])
                   && (forall j :: 0 <= j < i ==> !Rejects(rest[j]))
                   && ApplyAll(first.value, rest).error == NullArgument(Target(rest[i]));
          assert Rejects(ops[i + 1]);
          assert forall j :: 0 <= j < i + 1 ==> !Rejects(ops[j]) by {
            forall j | 0 <= j < i + 1 ensures !Rejects(ops[j]) {
              if j > 0 {
                assert ops[j] == rest[j - 1];
              }
            }
          }
        } else {
          forall i | 0 <= i < |ops| ensures !Rejects(ops[i]) {
            if i > 0 {
              assert ops[i] == rest[i - 1];
            }
          }
        }
      }
    }
  }

  /** The setter invoked first is among the chain's writes, and so is every
      write of the rest of the chain. */
  lemma WrittenByCons(ops: seq<Setter>)
    requires ops != []
    ensures Writes(ops[0]) <= WrittenBy(ops)
    ensures WrittenBy(ops[1..]) <= WrittenBy(ops)
  {
    forall a | a in Writes(ops[0]) ensures a in WrittenBy(ops) {
      assert 0 < |ops|;
    }
    var rest := ops[1..];
    forall a | a in WrittenBy(rest) ensures a in WrittenBy(ops) {
      var i :| 0 <= i < |rest| && a in Writes(rest[i]);
      assert rest[i] == ops[i + 1];
    }
  }

  /** A chain that does not throw changes only the attributes its setters
      write. */
  lemma {:induction false} ChainFrame(b: Builder, ops: seq<Setter>)
    ensures ApplyAll(b, ops).Success? ==> AgreeOutside(b, ApplyAll(b, ops).value, WrittenBy(ops))
    decreases |ops|
  {
    if ops != [] {
      var first := Apply(b, ops[0]);
      if first.Success? {
        ChainFrame(first.value, ops[1..]);
        WrittenByCons(ops);
      }
    }
  }

  /** Whether a setter's argument is held depends only on its target
      attribute. */
  lemma StoredFramed(x: Builder, y: Builder, op: Setter, touched: set<Attr>)
    requires AgreeOutside(x, y, touched) && Target(op) !in touched
    requires Stored(x, op)
    ensures Stored(y, op)
  {
  }

  /** No setter after position `i` targets the attribute of the setter at
      `i`. */
  predicate LastFor(ops: seq<Setter>, i: int) {
    0 <= i < |ops| && forall j :: i < j < |ops| ==> Target(ops[j]) != Target(ops[i])
  }

  /** Being the last setter for an attribute survives dropping the chain's
      first setter, and the first setter, when last for its attribute, is
      not overwritten by the rest. */
  lemma LastForTail(ops: seq<Setter>, i: int)
    requires LastFor(ops, i)
    ensures i > 0 ==> LastFor(ops[1..], i - 1)
    ensures i == 0 ==> Target(ops[0]) !in WrittenBy(ops[1..])
  {
    var rest := ops[1..];
    if i > 0 {
      forall j | i - 1 < j < |rest| ensures Target(rest[j]) != Target(rest[i - 1]) {
        assert rest[j] == ops[j + 1] && rest[i - 1] == ops[i];
      }
    } else {
      forall k | 0 <= k < |rest| ensures Target(ops[0]) !in Writes(rest[k]) {
        assert rest[k] == ops[k + 1];
      }
    }
  }

  /** A chain that does not throw accumulates its configuration: every
      setter that no later setter of the chain overrides leaves its argument
      in its attribute. */
  lemma {:induction false} ChainStoresLast(b: Builder, ops: seq<Setter>)
    ensures ApplyAll(b, ops).Success? ==>
      forall i :: LastFor(ops, i) ==> Stored(ApplyAll(b, ops).value, ops[i])
    decreases |ops|
  {
    if ops != [] {
      var first := Apply(b, ops[0]);
      if first.Success? {
        var rest := ops[1..];
        var r := ApplyAll(b, ops);
        assert r == ApplyAll(first.value, rest);
        if r.Success? {
          ChainStoresLast(first.value, rest);
          ChainFrame(first.value, rest);
          forall i | LastFor(ops, i) ensures Stored(r.value, ops[i]) {
            LastForTail(ops, i);
            if i == 0 {
              StoredFramed(first.value, r.value, ops[0], WrittenBy(rest));
            } else {
              assert ops[i] == rest[i - 1];
            }
          }
        }
      }
    }
  }

  /** Reading the encoding from the end agrees with applying the first
      setter's choice and then reading the rest. */
  lemma {:induction false} LastEncodingCons(init: BodyEncoding, op: Setter, rest: seq<Setter>)
    ensures LastEncoding(init, [op] + rest) ==
      LastEncoding(match EncodingChosen(op) case Some(e) => e case None => init, rest)
    decreases |rest|
  {
    var ops := [op] + rest;
    if rest != [] {
      assert ops[|ops| - 1] == rest[|rest| - 1];
      assert ops[..|ops| - 1] == [op] + rest[..|rest| - 1];
      LastEncodingCons(init, op, rest[..|rest| - 1]);
    } else {
      assert ops[..|ops| - 1] == [];
    }
  }

  /** The encoding a non-throwing chain leaves behind is the one its last
      `parts` or `fields` call chose, or the starting one when there is no
      such call. */
  lemma {:induction false} ChainEncoding(b: Builder, ops: seq<Setter>)
    ensures ApplyAll(b, ops).Success? ==>
      ApplyAll(b, ops).value.bodyEncoding == LastEncoding(b.bodyEncoding, ops)
    decreases |ops|
  {
    if ops != [] {
      var first := Apply(b, ops[0]);
      if first.Success? {
        ChainEncoding(first.value, ops[1..]);
        LastEncodingCons(b.bodyEncoding, ops[0], ops[1..]);
        assert [ops[0]] + ops[1..] == ops;
      }
    }
  }

  /** `LastEncoding` is the choice of the last encoding-setting call: the
      starting encoding when the chain has none, and otherwise the choice of
      the call after which no other call chooses one. */
  lemma {:induction false} LastEncodingIsLastChoice(init: BodyEncoding, ops: seq<Setter>)
    ensures (forall i :: 0 <= i < |ops| ==> EncodingChosen(ops[i]).None?) ==>
      LastEncoding(init, ops) == init
    ensures forall i ::
      (&& 0 <= i < |ops| && EncodingChosen(ops[i]).Some?
       && (forall j :: i < j < |ops| ==> EncodingChosen(ops[j]).None?)) ==>
      LastEncoding(init, ops) == EncodingChosen(ops[i]).value
    decreases |ops|
  {
    if ops != [] {
      var n := |ops| - 1;
      var front := ops[..n];
      LastEncodingIsLastChoice(init, front);
      assert forall i :: 0 <= i < n ==> front[i] == ops[i];
    }
  }

  /** Whichever of `parts` and `fields` is called last decides the encoding. */
  lemma PartsThenFields(b: Builder, ps: seq<Part>, fs: seq<Field>)
    ensures var r := ApplyAll(b, [Parts(Some(ps)), Fields(Some(fs))]);
      r.Success? && r.value.bodyEncoding == FORM_URL_ENCODED
    ensures var r := ApplyAll(b, [Fields(Some(fs)), Parts(Some(ps))]);
      r.Success? && r.value.bodyEncoding == MULTIPART
  {
    var ops := [Parts(Some(ps)), Fields(Some(fs))];
    var b1 := SetParts(b, Some(ps)).value;
    assert ApplyAll(b, ops) == ApplyAll(b1, [Fields(Some(fs))]) by { assert ops[1..] == [Fields(Some(fs))]; }
    assert ApplyAll(b1, [Fields(Some(fs))]) == ApplyAll(SetFields(b1, Some(fs)).value, []) by {
      assert [Fields(Some(fs))][1..] == [];
    }
    ops := [Fields(Some(fs)), Parts(Some(ps))];
    var b2 := SetFields(b, Some(fs)).value;
    assert ApplyAll(b, ops) == ApplyAll(b2, [Parts(Some(ps))]) by { assert ops[1..] == [Parts(Some(ps))]; }
    assert ApplyAll(b2, [Parts(Some(ps))]) == ApplyAll(SetParts(b2, Some(ps)).value, []) by {
      assert [Parts(Some(ps))][1..] == [];
    }
  }
}
