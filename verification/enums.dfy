/** The closed set of providers and the case-insensitive, exact lookup of a
    provider by name (`Service.from_str`), with its round trip through `__str__`. */
module Enums {
  import opened AsciiText
  import opened Errors

  datatype Service = Aristote | Anthropic | OpenAI | Google | xAI

  /** The enumeration value of each member. */
  function Value(m: Service): string {
    match m
    case Aristote => "Aristote"
    case Anthropic => "Anthropic"
    case OpenAI => "OpenAI"
    case Google => "Google"
    case xAI => "xAI"
  }

  /** `__str__`: a member prints as its value, so the printed form looks the
      member up again. */
  function ToString(m: Service): (r: string)
    ensures FromStr(r) == Ok(m)
  {
    FromStrMatches(Value(m), m);
    Value(m)
  }

  /** The members in declaration order, which is the order `from_str` tries them in. */
  const Members: seq<Service> := [Aristote, Anthropic, OpenAI, Google, xAI]

  lemma MembersComplete(m: Service)
    ensures m in Members
  {
  }

  /** The loop of `from_str`: the first candidate whose lowered value is `key`. */
  function Scan(candidates: seq<Service>, key: string): (r: Option<Service>)
    ensures r.Some? ==> r.value in candidates && Lower(Value(r.value)) == key
    ensures r.None? ==> forall i :: 0 <= i < |candidates| ==> Lower(Value(candidates[i])) != key
    decreases |candidates|
  {
    if |candidates| == 0 then None
    else if Lower(Value(candidates[0])) == key then Some(candidates[0])
    else Scan(candidates[1..], key)
  }

  /** `Service.from_str`: succeeds exactly when some member's value equals `s` up to
      case, and otherwise raises `InvalidServiceError` naming `s`. */
  function FromStr(s: string): (r: Result<Service>)
    ensures r.Ok? <==> exists m :: Lower(Value(m)) == Lower(s)
    ensures r.Ok? ==> Lower(Value(r.value)) == Lower(s)
    ensures r.Err? ==> r.error.InvalidServiceError? && Contains(r.error.message, s)
  {
    match Scan(Members, Lower(s))
    case Some(m) => Ok(m)
    case None =>
      assert forall m :: Lower(Value(m)) != Lower(s) by {
        forall m ensures Lower(Value(m)) != Lower(s) {
          MembersComplete(m);
        }
      }
      ContainsMiddle("'", s, "' is not a valid service");
      Err(InvalidServiceError("'" + s + "' is not a valid service"))
  }

  /** No two members share a value once lowered, so at most one member matches any
      input and the declaration order of the loop cannot change the answer. */
  lemma LoweredValuesDistinct(m1: Service, m2: Service)
    ensures Lower(Value(m1)) == Lower(Value(m2)) ==> m1 == m2
  {
    var a, b := Lower(Value(m1)), Lower(Value(m2));
    assert |a| == |Value(m1)| && |b| == |Value(m2)|;
    assert a[0] == LowerChar(Value(m1)[0]) && b[0] == LowerChar(Value(m2)[0]);
  }

  /** The complete characterisation: `from_str(s)` is `m` exactly when `s` and `m`'s
      value agree after lowering. */
  lemma FromStrMatches(s: string, m: Service)
    ensures FromStr(s) == Ok(m) <==> Lower(s) == Lower(Value(m))
  {
    if Lower(s) == Lower(Value(m)) {
      LoweredValuesDistinct(m, FromStr(s).value);
    }
  }

  /** Round trip: looking up a member's value, or its printed form, gives the member back. */
  lemma RoundTrip(m: Service)
    ensures FromStr(Value(m)) == Ok(m)
    ensures FromStr(ToString(m)) == Ok(m)
  {
    FromStrMatches(Value(m), m);
    assert ToString(m) == Value(m);
  }

  /** Any ASCII case variant of a member's value is accepted as that member. */
  lemma CaseVariantAccepted(m: Service, s: string)
    requires IsAsciiCaseVariant(s, Value(m))
    ensures FromStr(s) == Ok(m)
  {
    CaseVariantIffSameLower(s, Value(m));
    FromStrMatches(s, m);
  }

  /** In particular the all-lowercase and the all-uppercase spellings are accepted. */
  lemma LowerAndUpperAccepted(m: Service)
    ensures FromStr(Lower(Value(m))) == Ok(m)
    ensures FromStr(Upper(Value(m))) == Ok(m)
  {
    LowerUpperAreVariants(Value(m));
    CaseVariantAccepted(m, Lower(Value(m)));
    CaseVariantAccepted(m, Upper(Value(m)));
  }

  /** Lowering the input first does not change which member is found; on failure
      both raise `InvalidServiceError`, though each message names its own input. */
  lemma PreLoweringInvariant(s: string)
    ensures FromStr(Lower(s)).Ok? <==> FromStr(s).Ok?
    ensures FromStr(s).Ok? ==> FromStr(Lower(s)) == FromStr(s)
    ensures FromStr(s).Err? ==> FromStr(Lower(s)).error.InvalidServiceError?
  {
    LowerIdempotent(s);
  }

  /** Matching is exact: an accepted input has exactly the length of the member's value,
      so no proper prefix or extension of a value is accepted as that member. */
  lemma MatchIsExact(s: string, m: Service)
    requires FromStr(s) == Ok(m)
    ensures |s| == |Value(m)|
  {
  }

  /** Inputs that are a prefix or an extension of a value, or no name at all, are refused. */
  lemma NearMissesRejected()
    ensures FromStr("open").Err?
    ensures FromStr("openai-x").Err?
    ensures FromStr("not-a-service").Err?
  {
    forall m: Service ensures Lower(Value(m)) != Lower("open") {
      assert |Lower("open")| == 4;
    }
    forall m: Service ensures Lower(Value(m)) != Lower("openai-x") {
      var l := Lower("openai-x");
      assert |l| == 8 && l[0] == 'o';
      assert |Lower(Value(m))| == |Value(m)|;
      if m == Aristote {
        assert Lower(Value(m))[0] == 'a';
      }
    }
    forall m: Service ensures Lower(Value(m)) != Lower("not-a-service") {
      assert |Lower("not-a-service")| == 13;
    }
  }
}
