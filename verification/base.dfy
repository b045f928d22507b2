/** Shared vocabulary: optional values, results carrying the service's typed
    errors, Python truthiness and decimal formatting of integers. */
module Base {

  datatype Option<+T> = None | Some(value: T)

  /** The request fields the services' validators name. */
  datatype Field =
    | Name | CheckpointModelId | VaeModelId | LoraModelIds | ConrolNetModelIds
    | ControlnetConditioningScale | ControlGuidanceStart | ControlGuidanceEnd
    | EmbeddingModelIds | EngineId | GeneratorId

  /** The field's name as it appears in an error's "field" entry. */
  function FieldName(f: Field): string
  {
    match f
    case Name => "name"
    case CheckpointModelId => "checkpoint_model_id"
    case VaeModelId => "vae_model_id"
    case LoraModelIds => "lora_model_ids"
    case ConrolNetModelIds => "conrol_net_model_ids"
    case ControlnetConditioningScale => "controlnet_conditioning_scale"
    case ControlGuidanceStart => "control_guidance_start"
    case ControlGuidanceEnd => "control_guidance_end"
    case EmbeddingModelIds => "embedding_model_ids"
    case EngineId => "engine_id"
    case GeneratorId => "generator_id"
  }

  /** Distinct fields have distinct names, so naming fields by `Field`
      loses nothing. */
  lemma FieldNamesDistinct(f: Field, g: Field)
    ensures FieldName(f) == FieldName(g) ==> f == g
  {
  }

  /** A `{field, error}` pair as collected by the services' validators. */
  datatype FieldError = FieldError(field: Field, error: string)

  /** A raised error: its tag (the first argument of TSTError, or the
      Python exception class for failed assertions), the `status_code`
      in its metadata when there is one, and its `error_per_field` list. */
  datatype Error = Error(tag: string, status: Option<int>, errorPerField: seq<FieldError>)

  datatype Result<+T> = Ok(value: T) | Err(error: Error)

  /** An error without per-field details. */
  function Raise(tag: string, status: Option<int>): (e: Error)
    ensures e.tag == tag && e.status == status && e.errorPerField == []
  {
    Error(tag, status, [])
  }

  /** A failed Python `assert`. */
  const AssertionFailed: Error := Error("AssertionError", None, [])

  /** Python truthiness of an optional integer: None and 0 are false. */
  predicate TruthyInt(x: Option<int>) { x.Some? && x.value != 0 }

  /** Python truthiness of an optional float: None and 0.0 are false. */
  predicate TruthyReal(x: Option<real>) { x.Some? && x.value != 0.0 }

  /** `a or b` for an optional integer and an integer fallback. */
  function OrInt(a: Option<int>, b: int): (r: int)
    ensures TruthyInt(a) ==> r == a.value
    ensures !TruthyInt(a) ==> r == b
  {
    if TruthyInt(a) then a.value else b
  }

  /** `a or b` for an optional float and a float fallback. */
  function OrReal(a: Option<real>, b: real): (r: real)
    ensures TruthyReal(a) ==> r == a.value
    ensures !TruthyReal(a) ==> r == b
  {
    if TruthyReal(a) then a.value else b
  }

  /** `a or b` for two optional floats. */
  function OrOptReal(a: Option<real>, b: Option<real>): (r: Option<real>)
    ensures TruthyReal(a) ==> r == a
    ensures !TruthyReal(a) ==> r == b
  {
    if TruthyReal(a) then a else b
  }

  function DigitChar(d: nat): (c: char)
    requires d < 10
    ensures '0' <= c <= '9'
    ensures c as int - '0' as int == d
  {
    ('0' as int + d) as char
  }

  /** Decimal digits of a natural number, as `str()` writes them. */
  function NatToString(n: nat): (s: string)
    ensures |s| >= 1
    ensures forall i :: 0 <= i < |s| ==> '0' <= s[i] <= '9'
  {
    if n < 10 then [DigitChar(n)] else NatToString(n / 10) + [DigitChar(n % 10)]
  }

  /** `str(i)` for an integer. */
  function IntToString(i: int): (s: string)
    ensures |s| >= 1
    ensures i < 0 <==> s[0] == '-'
  {
    if i < 0 then "-" + NatToString(-i) else NatToString(i)
  }

  predicate AllDigits(s: string) {
    forall i :: 0 <= i < |s| ==> '0' <= s[i] <= '9'
  }

  /** Reads decimal digits back, as `int()` does for a digit string. */
  function ParseNat(s: string): (n: nat)
    requires AllDigits(s)
    ensures s == [] ==> n == 0
  {
    if s == [] then 0
    else
      var last := s[|s| - 1];
      assert '0' <= last <= '9';
      assert '0' as int <= last as int;
      var prefix := s[..|s| - 1];
      assert AllDigits(prefix) by {
        forall i | 0 <= i < |prefix| ensures '0' <= prefix[i] <= '9' {
          assert prefix[i] == s[i];
        }
      }
      ParseNat(prefix) * 10 + (last as int - '0' as int)
  }

  /** Reads an optionally signed decimal integer back, as `int()` does. */
  function ParseInt(s: string): (i: int)
    requires s != []
    requires s[0] == '-' ==> AllDigits(s[1..])
    requires s[0] != '-' ==> AllDigits(s)
    ensures s[0] == '-' ==> i <= 0
    ensures s[0] != '-' ==> i >= 0
  {
    if s[0] == '-' then -(ParseNat(s[1..]) as int) else ParseNat(s)
  }

  /** `int(str(n)) == n`: the decimal text loses nothing. */
  lemma {:induction false} NatToStringParses(n: nat)
    ensures AllDigits(NatToString(n)) && ParseNat(NatToString(n)) == n
  {
    var s := NatToString(n);
    if n >= 10 {
      NatToStringParses(n / 10);
      assert s[..|s| - 1] == NatToString(n / 10);
    }
  }

  /** `int(str(i)) == i` for signed integers too, so distinct ids render
      as distinct texts. */
  lemma IntToStringParses(i: int)
    ensures var s := IntToString(i);
      (s[0] == '-' ==> AllDigits(s[1..])) && (s[0] != '-' ==> AllDigits(s))
      && ParseInt(s) == i
  {
    if i < 0 {
      NatToStringParses(-i);
      assert IntToString(i)[1..] == NatToString(-i);
    } else {
      NatToStringParses(i);
    }
  }

  lemma IntToStringInjective(a: int, b: int)
    ensures IntToString(a) == IntToString(b) ==> a == b
  {
    IntToStringParses(a);
    IntToStringParses(b);
  }

  /** Keeps the elements of `s` that satisfy `p`, in order. */
  function Filter<T>(s: seq<T>, p: T -> bool): (r: seq<T>)
    ensures |r| <= |s|
  {
    if s == [] then []
    else if p(s[0]) then [s[0]] + Filter(s[1..], p)
    else Filter(s[1..], p)
  }

  /** What `Filter` keeps comes from `s` and satisfies `p`, and every
      element of `s` that satisfies `p` is kept. */
  lemma {:induction false} FilterMembers<T>(s: seq<T>, p: T -> bool)
    ensures forall i :: 0 <= i < |Filter(s, p)| ==> Filter(s, p)[i] in s && p(Filter(s, p)[i])
    ensures forall i :: 0 <= i < |s| && p(s[i]) ==> s[i] in Filter(s, p)
  {
    if s != [] {
      FilterMembers(s[1..], p);
      var rest := Filter(s[1..], p);
      forall i | 0 <= i < |s| && p(s[i]) ensures s[i] in Filter(s, p) {
        if i > 0 {
          assert s[1..][i - 1] == s[i];
        }
      }
      if p(s[0]) {
        assert Filter(s, p) == [s[0]] + rest;
        forall i | 0 <= i < |Filter(s, p)| ensures Filter(s, p)[i] in s {
          if i > 0 {
            assert Filter(s, p)[i] == rest[i - 1];
            assert rest[i - 1] in s[1..];
          }
        }
      } else {
        forall i | 0 <= i < |rest| ensures rest[i] in s {
          assert rest[i] in s[1..];
        }
      }
    }
  }

  /** Filtering with a predicate every element meets changes nothing. */
  lemma {:induction false} FilterAll<T>(s: seq<T>, p: T -> bool)
    requires forall k :: 0 <= k < |s| ==> p(s[k])
    ensures Filter(s, p) == s
  {
    if s != [] {
      FilterAll(s[1..], p);
      assert [s[0]] + s[1..] == s;
    }
  }

  /** Filtering with a predicate no element meets leaves nothing. */
  lemma {:induction false} FilterNone<T>(s: seq<T>, p: T -> bool)
    requires forall k :: 0 <= k < |s| ==> !p(s[k])
    ensures Filter(s, p) == []
  {
    if s != [] {
      FilterNone(s[1..], p);
    }
  }

  lemma {:induction false} FilterAppend<T>(a: seq<T>, b: seq<T>, p: T -> bool)
    ensures Filter(a + b, p) == Filter(a, p) + Filter(b, p)
  {
    if a == [] {
      assert a + b == b;
    } else {
      assert (a + b)[1..] == a[1..] + b;
      FilterAppend(a[1..], b, p);
    }
  }

  /** Filtering a non-empty sequence filters its front and then its last element. */
  lemma FilterSnoc<T>(s: seq<T>, p: T -> bool)
    requires s != []
    ensures Filter(s, p) == Filter(s[..|s| - 1], p) + Filter([s[|s| - 1]], p)
  {
    assert s[..|s| - 1] + [s[|s| - 1]] == s;
    FilterAppend(s[..|s| - 1], [s[|s| - 1]], p);
  }

  /** Filtering with two predicates that agree on every element gives the same result. */
  lemma {:induction false} FilterCongruent<T>(s: seq<T>, p: T -> bool, q: T -> bool)
    requires forall k :: 0 <= k < |s| ==> p(s[k]) == q(s[k])
    ensures Filter(s, p) == Filter(s, q)
  {
    if s != [] {
      FilterCongruent(s[1..], p, q);
    }
  }

  /** Concatenation is associative. */
  lemma AppendAssoc<T>(a: seq<T>, b: seq<T>, c: seq<T>)
    ensures a + b + c == a + (b + c)
  {
  }
}
