/** Hook descriptors read from configuration, and the list form's normalisation (`listToHooks`). */
module Hooks {
  import opened Options
  import opened Values

  /** A hook descriptor: the hook's name and its still undecoded settings. */
  datatype Hook = Hook(name: string, settings: Value)

  /**
   * The weak struct decoder (mapstructure's `WeakDecode`) from a string-keyed
   * map into a `Hook`; a library outside this model, passed in as a function.
   */
  type WeakDecoder = map<string, Value> -> Option<Hook>

  /** The entries of a map with arbitrary keys whose keys are strings; the others are dropped. */
  function StringKeyed(raw: map<Value, Value>): (m: map<string, Value>)
    ensures forall k :: k in m <==> Str(k) in raw
    ensures forall k :: k in m ==> m[k] == raw[Str(k)]
  {
    var names := set v | v in raw && v.Str? :: v.s;
    map k | k in names :: raw[Str(k)]
  }

  /** The list element `e` survives: it is a `map[interface{}]interface{}` whose string-keyed part decodes. */
  predicate Survives(e: Value, decode: WeakDecoder)
  {
    e.AnyMap? && decode(StringKeyed(e.entries)).Some?
  }

  /** What one list element contributes to `listToHooks`'s result. */
  function Contribution(e: Value, decode: WeakDecoder): (r: seq<Hook>)
    ensures |r| <= 1
    ensures |r| == 1 <==> Survives(e, decode)
    ensures |r| == 1 ==> decode(StringKeyed(e.entries)) == Some(r[0])
  {
    if e.AnyMap? then
      match decode(StringKeyed(e.entries))
      case Some(h) => [h]
      case None => []
    else []
  }

  /** `listToHooks`: decode each surviving element, in input order. */
  function ListToHooks(raw: seq<Value>, decode: WeakDecoder): (hooks: seq<Hook>)
    ensures |hooks| <= |raw|
    ensures raw == [] ==> hooks == []
  {
    if raw == [] then []
    else Contribution(raw[0], decode) + ListToHooks(raw[1..], decode)
  }

  /** Normalising a concatenation normalises each part in turn. */
  lemma {:induction false} ListToHooksAppend(a: seq<Value>, b: seq<Value>, decode: WeakDecoder)
    ensures ListToHooks(a + b, decode) == ListToHooks(a, decode) + ListToHooks(b, decode)
    decreases |a|
  {
    if a == [] {
      assert a + b == b;
    } else {
      assert (a + b)[0] == a[0];
      assert (a + b)[1..] == a[1..] + b;
      ListToHooksAppend(a[1..], b, decode);
    }
  }

  /** The positions at or after `from` whose elements survive, ascending. */
  ghost function SurvivorsFrom(raw: seq<Value>, decode: WeakDecoder, from: nat): (idx: seq<nat>)
    requires from <= |raw|
    decreases |raw| - from
  {
    if from == |raw| then []
    else (if Survives(raw[from], decode) then [from] else []) + SurvivorsFrom(raw, decode, from + 1)
  }

  /** The listed positions are exactly the surviving ones at or after `from`, strictly ascending. */
  lemma {:induction false} SurvivorsFromExact(raw: seq<Value>, decode: WeakDecoder, from: nat)
    requires from <= |raw|
    ensures var idx := SurvivorsFrom(raw, decode, from);
      && (forall k :: 0 <= k < |idx| ==> from <= idx[k] < |raw|)
      && (forall k, j :: 0 <= k < j < |idx| ==> idx[k] < idx[j])
      && (forall i :: from <= i < |raw| ==> (Survives(raw[i], decode) <==> i in idx))
    decreases |raw| - from
  {
    if from < |raw| {
      SurvivorsFromExact(raw, decode, from + 1);
    }
  }

  /** The k-th hook of the result is the decoded k-th surviving element. */
  lemma {:induction false} SurvivorsFromDecode(raw: seq<Value>, decode: WeakDecoder, from: nat)
    requires from <= |raw|
    ensures var idx := SurvivorsFrom(raw, decode, from);
      var hooks := ListToHooks(raw[from..], decode);
      && |idx| == |hooks|
      && (forall k :: 0 <= k < |idx| ==>
            && idx[k] < |raw|
            && Survives(raw[idx[k]], decode)
            && decode(StringKeyed(raw[idx[k]].entries)) == Some(hooks[k]))
    decreases |raw| - from
  {
    if from < |raw| {
      SurvivorsFromDecode(raw, decode, from + 1);
      assert raw[from..][1..] == raw[from + 1..];
    }
  }

  /**
   * Order preservation: the result is the decoded forms of exactly the
   * surviving elements, in their input order. `idx` lists the surviving
   * positions: strictly ascending, each one survives, and every surviving
   * position is listed.
   */
  lemma ListToHooksSurvivors(raw: seq<Value>, decode: WeakDecoder)
    ensures var idx := SurvivorsFrom(raw, decode, 0);
      var hooks := ListToHooks(raw, decode);
      && |idx| == |hooks|
      && (forall k, j :: 0 <= k < j < |idx| ==> idx[k] < idx[j])
      && (forall i :: 0 <= i < |raw| ==> (Survives(raw[i], decode) <==> i in idx))
      && (forall k :: 0 <= k < |idx| ==>
            && idx[k] < |raw|
            && decode(StringKeyed(raw[idx[k]].entries)) == Some(hooks[k]))
  {
    SurvivorsFromExact(raw, decode, 0);
    SurvivorsFromDecode(raw, decode, 0);
    assert raw[0..] == raw;
  }

  /** Elements of any other dynamic type, `map[string]interface{}` included, contribute nothing. */
  lemma {:induction false} ListToHooksDropsNonAnyMap(raw: seq<Value>, decode: WeakDecoder)
    requires forall i :: 0 <= i < |raw| ==> !raw[i].AnyMap?
    ensures ListToHooks(raw, decode) == []
    decreases |raw|
  {
    if raw != [] {
      ListToHooksDropsNonAnyMap(raw[1..], decode);
    }
  }
}
