/**
 * The aircraft classifier `detectAircraftType`: an optional free-text model
 * string is upper-cased and tested against an ordered chain of substring
 * rules; the first rule that matches decides the airframe code, and an
 * absent, empty or unmatched model gives the baseline code "A320".
 */
module AircraftType {
  import opened Wrappers
  import opened JsText

  /** The airframe codes the classifier can return (fifteen of them). */
  datatype Airframe =
    | A320neo | A321 | A319 | A320 | A330 | A350 | A380
    | B38M | B738 | B787 | B777 | E190 | E195 | ATR | CRJ

  /** The string the server sends for each airframe code. */
  function Name(a: Airframe): string {
    match a
    case A320neo => "A320neo"
    case A321 => "A321"
    case A319 => "A319"
    case A320 => "A320"
    case A330 => "A330"
    case A350 => "A350"
    case A380 => "A380"
    case B38M => "B38M"
    case B738 => "B738"
    case B787 => "B787"
    case B777 => "B777"
    case E190 => "E190"
    case E195 => "E195"
    case ATR => "ATR"
    case CRJ => "CRJ"
  }

  /** Distinct codes are sent as distinct strings, so the string identifies the code. */
  lemma NameInjective(a: Airframe, b: Airframe)
    ensures Name(a) == Name(b) <==> a == b
  {
  }

  /** The code for an absent, empty or unrecognised model. */
  const DEFAULT_CODE: Airframe := A320

  /** `detectAircraftType(model)`: falsy models get the baseline code, others are classified upper-cased. */
  function DetectAircraftType(model: Option<string>): (r: Airframe)
    ensures !Truthy(model) ==> r == DEFAULT_CODE
  {
    if !Truthy(model) then A320 else Classify(Upper(model.value))
  }

  /**
   * The chain of conditional returns, applied to the upper-cased model `m`.
   * It is split in three by family (Airbus, Boeing, regional types); the
   * order of the tests is the server's.
   */
  function Classify(m: string): Airframe {
    if Includes(m, "A320") && Includes(m, "NEO") then A320neo
    else if Includes(m, "A321") then A321
    else if Includes(m, "A319") then A319
    else if Includes(m, "A320") then A320
    else if Includes(m, "A330") then A330
    else if Includes(m, "A350") then A350
    else if Includes(m, "A380") then A380
    else ClassifyBoeing(m)
  }

  function ClassifyBoeing(m: string): Airframe {
    if Includes(m, "737") && Includes(m, "MAX") then B38M
    else if Includes(m, "737") then B738
    else if Includes(m, "787") then B787
    else if Includes(m, "777") then B777
    else ClassifyRegional(m)
  }

  function ClassifyRegional(m: string): Airframe {
    if Includes(m, "E190") || Includes(m, "ERJ-190") then E190
    else if Includes(m, "E195") then E195
    else if Includes(m, "ATR") then ATR
    else if Includes(m, "CRJ") || Includes(m, "DASH") then CRJ
    else A320
  }

  // ---------------------------------------------------------------------------
  // The same classifier as an ordered rule table with first-match semantics.

  /** The substring test of one rule: one pattern, both of two, or either of two. */
  datatype Test = Has(p: string) | HasBoth(p: string, q: string) | HasEither(p: string, q: string)

  /** One rule: a test on the upper-cased model and the code it yields. */
  datatype Rule = Rule(test: Test, code: Airframe)

  predicate Passes(t: Test, m: string) {
    match t
    case Has(p) => Includes(m, p)
    case HasBoth(p, q) => Includes(m, p) && Includes(m, q)
    case HasEither(p, q) => Includes(m, p) || Includes(m, q)
  }

  /** The rules in the order the server tries them. */
  const RULES: seq<Rule> := [
    Rule(HasBoth("A320", "NEO"), A320neo),
    Rule(Has("A321"), A321),
    Rule(Has("A319"), A319),
    Rule(Has("A320"), A320),
    Rule(Has("A330"), A330),
    Rule(Has("A350"), A350),
    Rule(Has("A380"), A380),
    Rule(HasBoth("737", "MAX"), B38M),
    Rule(Has("737"), B738),
    Rule(Has("787"), B787),
    Rule(Has("777"), B777),
    Rule(HasEither("E190", "ERJ-190"), E190),
    Rule(Has("E195"), E195),
    Rule(Has("ATR"), ATR),
    Rule(HasEither("CRJ", "DASH"), CRJ)
  ]

  /** The code of the first rule whose test passes on `m`, or the default. */
  function FirstMatch(rules: seq<Rule>, m: string): Airframe
    decreases |rules|
  {
    if rules == [] then DEFAULT_CODE
    else if Passes(rules[0].test, m) then rules[0].code
    else FirstMatch(rules[1..], m)
  }

  /** Rule `k` passes on `m` and no rule before it does. */
  predicate FiresFirst(rules: seq<Rule>, m: string, k: int) {
    0 <= k < |rules| && Passes(rules[k].test, m) &&
    forall j :: 0 <= j < k ==> !Passes(rules[j].test, m)
  }

  /** No rule passes on `m`. */
  predicate NoneFires(rules: seq<Rule>, m: string) {
    forall j :: 0 <= j < |rules| ==> !Passes(rules[j].test, m)
  }

  /** First-match semantics: the earliest passing rule decides, and no passing rule means the default. */
  lemma {:induction false} FirstMatchIsFirst(rules: seq<Rule>, m: string)
    ensures NoneFires(rules, m) ==> FirstMatch(rules, m) == DEFAULT_CODE
    ensures forall k :: FiresFirst(rules, m, k) ==> FirstMatch(rules, m) == rules[k].code
    ensures NoneFires(rules, m) || exists k :: FiresFirst(rules, m, k)
  {
    if rules != [] {
      FirstMatchIsFirst(rules[1..], m);
      if Passes(rules[0].test, m) {
        assert FiresFirst(rules, m, 0);
      } else {
        forall k | FiresFirst(rules, m, k)
          ensures FiresFirst(rules[1..], m, k - 1)
        {
          assert k != 0;
        }
        if !NoneFires(rules[1..], m) {
          var k :| FiresFirst(rules[1..], m, k);
          assert FiresFirst(rules, m, k + 1);
        }
      }
    }
  }

  /** The chain of conditionals is the rule table applied with first-match semantics. */
  lemma ClassifyIsFirstMatch(m: string)
    ensures Classify(m) == FirstMatch(RULES, m)
  {
    assert RULES[0..] == RULES;
    FirstMatchStep(RULES, 0, m);
    FirstMatchStep(RULES, 1, m);
    FirstMatchStep(RULES, 2, m);
    FirstMatchStep(RULES, 3, m);
    FirstMatchStep(RULES, 4, m);
    FirstMatchStep(RULES, 5, m);
    FirstMatchStep(RULES, 6, m);
    BoeingIsFirstMatch(m);
  }

  lemma BoeingIsFirstMatch(m: string)
    ensures ClassifyBoeing(m) == FirstMatch(RULES[7..], m)
  {
    FirstMatchStep(RULES, 7, m);
    FirstMatchStep(RULES, 8, m);
    FirstMatchStep(RULES, 9, m);
    FirstMatchStep(RULES, 10, m);
    RegionalIsFirstMatch(m);
  }

  lemma RegionalIsFirstMatch(m: string)
    ensures ClassifyRegional(m) == FirstMatch(RULES[11..], m)
  {
    FirstMatchStep(RULES, 11, m);
    FirstMatchStep(RULES, 12, m);
    FirstMatchStep(RULES, 13, m);
    FirstMatchStep(RULES, 14, m);
    assert RULES[15..] == [];
  }

  /** One step of `FirstMatch` on the suffix of `rules` that starts at `k`. */
  lemma FirstMatchStep(rules: seq<Rule>, k: int, m: string)
    requires 0 <= k < |rules|
    ensures FirstMatch(rules[k..], m) ==
      if Passes(rules[k].test, m) then rules[k].code else FirstMatch(rules[k + 1..], m)
  {
  }

  /** No two rules yield the same code. */
  lemma RuleCodesDistinct(i: int, j: int)
    requires 0 <= i < |RULES| && 0 <= j < |RULES| && i != j
    ensures RULES[i].code != RULES[j].code
  {
  }

  // ---------------------------------------------------------------------------
  // What the rule order guarantees.

  /**
   * For a truthy model, the classifier returns the code of rule `k` exactly
   * when rule `k` is the first rule that passes (for every code other than the
   * default, which is also the fall-through result).
   */
  lemma DetectCodeIff(model: Option<string>, k: int)
    requires Truthy(model) && 0 <= k < |RULES| && RULES[k].code != DEFAULT_CODE
    ensures DetectAircraftType(model) == RULES[k].code <==> FiresFirst(RULES, Upper(model.value), k)
  {
    var m := Upper(model.value);
    ClassifyIsFirstMatch(m);
    FirstMatchIsFirst(RULES, m);
    if !NoneFires(RULES, m) {
      var k' :| FiresFirst(RULES, m, k');
      if k' != k {
        RuleCodesDistinct(k, k');
      }
    }
  }

  /**
   * The baseline code comes out exactly when the model is falsy, when no rule
   * passes, or when the generic A320 rule (index 3) is the first that passes.
   */
  lemma DetectDefaultIff(model: Option<string>)
    ensures DetectAircraftType(model) == DEFAULT_CODE <==>
      !Truthy(model) || NoneFires(RULES, Upper(model.value)) || FiresFirst(RULES, Upper(model.value), 3)
  {
    if Truthy(model) {
      var m := Upper(model.value);
      ClassifyIsFirstMatch(m);
      FirstMatchIsFirst(RULES, m);
      if !NoneFires(RULES, m) {
        var k' :| FiresFirst(RULES, m, k');
        if k' != 3 {
          RuleCodesDistinct(3, k');
        }
      }
    }
  }

  /** Only the upper-cased form of the model matters. */
  lemma DependsOnlyOnUpper(s: string, t: string)
    requires Upper(s) == Upper(t)
    ensures DetectAircraftType(Some(s)) == DetectAircraftType(Some(t))
  {
  }

  /** Classification ignores case: upper-casing or lower-casing the model changes nothing. */
  lemma CaseInsensitive(s: string)
    ensures DetectAircraftType(Some(Upper(s))) == DetectAircraftType(Some(s))
    ensures DetectAircraftType(Some(Lower(s))) == DetectAircraftType(Some(s))
  {
    UpperIdempotent(s);
    UpperOfLower(s);
  }

  /** A model naming both A320 and NEO is an A320neo, never the generic A320. */
  lemma NeoBeforeGenericA320(s: string)
    requires Includes(Upper(s), "A320") && Includes(Upper(s), "NEO")
    ensures DetectAircraftType(Some(s)) == A320neo
  {
  }

  /** A model naming both 737 and MAX is never classified as the generic 737 (B738). */
  lemma MaxNeverGeneric737(s: string)
    requires Includes(Upper(s), "737") && Includes(Upper(s), "MAX")
    ensures DetectAircraftType(Some(s)) != B738
  {
  }

  /** A model naming DASH and none of the patterns of the earlier rules is classified as CRJ. */
  lemma DashIsCrj(s: string)
    requires Includes(Upper(s), "DASH")
    requires forall j :: 0 <= j < 14 ==> !Passes(RULES[j].test, Upper(s))
    ensures DetectAircraftType(Some(s)) == CRJ
  {
    DetectCodeIff(Some(s), 14);
  }

  // ---------------------------------------------------------------------------
  // Concrete models. Each lemma takes any model whose upper-cased form is the
  // given text, so it covers every spelling of that text in upper and lower case.

  /** A model lacking 'A' or '3' passes none of the Airbus rules (0 to 6). */
  lemma NoAirbusRule(m: string)
    requires 'A' !in m || '3' !in m
    ensures forall j :: 0 <= j < 7 ==> !Passes(RULES[j].test, m)
  {
    var i := if 'A' !in m then 0 else 1;
    NotIncludesCharAbsent(m, "A320", i);
    NotIncludesCharAbsent(m, "A321", i);
    NotIncludesCharAbsent(m, "A319", i);
    NotIncludesCharAbsent(m, "A330", i);
    NotIncludesCharAbsent(m, "A350", i);
    NotIncludesCharAbsent(m, "A380", i);
  }

  /** A model lacking '7' passes none of the Boeing rules (7 to 10). */
  lemma NoBoeingRule(m: string)
    requires '7' !in m
    ensures forall j :: 7 <= j < 11 ==> !Passes(RULES[j].test, m)
  {
    NotIncludesCharAbsent(m, "737", 0);
    NotIncludesCharAbsent(m, "787", 0);
    NotIncludesCharAbsent(m, "777", 0);
  }

  /** A model lacking 'E' or '1' passes neither Embraer rule (11 and 12). */
  lemma NoEmbraerRule(m: string)
    requires 'E' !in m || '1' !in m
    ensures forall j :: 11 <= j < 13 ==> !Passes(RULES[j].test, m)
  {
    if 'E' !in m {
      NotIncludesCharAbsent(m, "E190", 0);
      NotIncludesCharAbsent(m, "ERJ-190", 0);
      NotIncludesCharAbsent(m, "E195", 0);
    } else {
      NotIncludesCharAbsent(m, "E190", 1);
      NotIncludesCharAbsent(m, "ERJ-190", 4);
      NotIncludesCharAbsent(m, "E195", 1);
    }
  }

  /** A model lacking '7', and 'A' or '3', that names the E190 in either spelling is an E190. */
  lemma E190Rule(s: string, i: int)
    requires ('A' !in Upper(s) || '3' !in Upper(s)) && '7' !in Upper(s)
    requires OccursAt(Upper(s), "E190", i) || OccursAt(Upper(s), "ERJ-190", i)
    ensures DetectAircraftType(Some(s)) == E190
  {
    var m := Upper(s);
    NoAirbusRule(m);
    NoBoeingRule(m);
    if OccursAt(m, "E190", i) {
      IncludesAt(m, "E190", i);
    } else {
      IncludesAt(m, "ERJ-190", i);
    }
    assert FiresFirst(RULES, m, 11);
    DetectCodeIff(Some(s), 11);
  }

  /**
   * A model naming CRJ or DASH that lacks '7', and that lacks 'A' or '3' (no
   * Airbus rule), 'E' or '1' (no Embraer rule) and 'A' or 'T' (no ATR), is a CRJ.
   */
  lemma CrjRule(s: string, i: int)
    requires ('A' !in Upper(s) || '3' !in Upper(s)) && '7' !in Upper(s)
    requires ('E' !in Upper(s) || '1' !in Upper(s)) && ('A' !in Upper(s) || 'T' !in Upper(s))
    requires OccursAt(Upper(s), "CRJ", i) || OccursAt(Upper(s), "DASH", i)
    ensures DetectAircraftType(Some(s)) == CRJ
  {
    var m := Upper(s);
    NoAirbusRule(m);
    NoBoeingRule(m);
    NoEmbraerRule(m);
    NotIncludesCharAbsent(m, "ATR", if 'A' !in m then 0 else 1);
    if OccursAt(m, "CRJ", i) {
      IncludesAt(m, "CRJ", i);
    } else {
      IncludesAt(m, "DASH", i);
    }
    assert FiresFirst(RULES, m, 14);
    DetectCodeIff(Some(s), 14);
  }

  /** The De Havilland "Dash 8" is classified CRJ. */
  lemma Dash8IsCrj(s: string)
    requires Upper(s) == "DASH 8"
    ensures DetectAircraftType(Some(s)) == CRJ
  {
    CrjRule(s, 0);
  }

  /** With the maker's name, whose 'E' does not reach an Embraer rule, it is still CRJ. */
  lemma DeHavillandDash8IsCrj(s: string)
    requires Upper(s) == "DE HAVILLAND DASH 8"
    ensures DetectAircraftType(Some(s)) == CRJ
  {
    CrjRule(s, 13);
  }

  /** A model with both A320 and NEO at known offsets is an A320neo. */
  lemma NeoRule(s: string, i: int, j: int)
    requires OccursAt(Upper(s), "A320", i) && OccursAt(Upper(s), "NEO", j)
    ensures DetectAircraftType(Some(s)) == A320neo
  {
    IncludesAt(Upper(s), "A320", i);
    IncludesAt(Upper(s), "NEO", j);
  }

  /** "Airbus A320neo" is classified A320neo. */
  lemma AirbusA320neo(s: string)
    requires Upper(s) == "AIRBUS A320NEO"
    ensures DetectAircraftType(Some(s)) == A320neo
  {
    NeoRule(s, 7, 11);
  }

  /** A model naming 737 and MAX, with none of the digits 0, 1 and 2, is a B38M. */
  lemma MaxRule(s: string, i: int, j: int)
    requires '0' !in Upper(s) && '1' !in Upper(s) && '2' !in Upper(s)
    requires OccursAt(Upper(s), "737", i) && OccursAt(Upper(s), "MAX", j)
    ensures DetectAircraftType(Some(s)) == B38M
  {
    var m := Upper(s);
    NotIncludesCharAbsent(m, "A320", 2);
    NotIncludesCharAbsent(m, "A321", 2);
    NotIncludesCharAbsent(m, "A319", 2);
    NotIncludesCharAbsent(m, "A330", 3);
    NotIncludesCharAbsent(m, "A350", 3);
    NotIncludesCharAbsent(m, "A380", 3);
    IncludesAt(m, "737", i);
    IncludesAt(m, "MAX", j);
    assert FiresFirst(RULES, m, 7);
    DetectCodeIff(Some(s), 7);
  }

  /** "Boeing 737 MAX 8" is classified B38M, the MAX variant. */
  lemma Boeing737Max8(s: string)
    requires Upper(s) == "BOEING 737 MAX 8"
    ensures DetectAircraftType(Some(s)) == B38M
  {
    MaxRule(s, 7, 11);
  }

  /** A model naming A321 without the digit 0 (so without A320) is an A321. */
  lemma A321Rule(s: string, i: int)
    requires '0' !in Upper(s) && OccursAt(Upper(s), "A321", i)
    ensures DetectAircraftType(Some(s)) == A321
  {
    var m := Upper(s);
    NotIncludesCharAbsent(m, "A320", 3);
    IncludesAt(m, "A321", i);
  }

  /** A model naming A319 without the digit 2 (so without A320 or A321) is an A319. */
  lemma A319Rule(s: string, i: int)
    requires '2' !in Upper(s) && OccursAt(Upper(s), "A319", i)
    ensures DetectAircraftType(Some(s)) == A319
  {
    var m := Upper(s);
    NotIncludesCharAbsent(m, "A320", 2);
    NotIncludesCharAbsent(m, "A321", 2);
    IncludesAt(m, "A319", i);
  }

  /** A model naming A320 without 'N' (no NEO) and without '1' (no A321, A319) is the generic A320. */
  lemma A320Rule(s: string, i: int)
    requires 'N' !in Upper(s) && '1' !in Upper(s) && OccursAt(Upper(s), "A320", i)
    ensures DetectAircraftType(Some(s)) == A320
  {
    var m := Upper(s);
    NotIncludesCharAbsent(m, "NEO", 0);
    NotIncludesCharAbsent(m, "A321", 3);
    NotIncludesCharAbsent(m, "A319", 2);
    IncludesAt(m, "A320", i);
  }

  /** A model naming A330 without the digits 1 and 2 is an A330. */
  lemma A330Rule(s: string, i: int)
    requires '1' !in Upper(s) && '2' !in Upper(s) && OccursAt(Upper(s), "A330", i)
    ensures DetectAircraftType(Some(s)) == A330
  {
    var m := Upper(s);
    NotIncludesCharAbsent(m, "A320", 2);
    NotIncludesCharAbsent(m, "A321", 2);
    NotIncludesCharAbsent(m, "A319", 2);
    IncludesAt(m, "A330", i);
  }

  /** A model naming A350, without the digits 1 and 2 and without A330, is an A350. */
  lemma A350Rule(s: string, i: int)
    requires '1' !in Upper(s) && '2' !in Upper(s) && OccursAt(Upper(s), "A350", i)
    requires forall k :: !OccursAt(Upper(s), "A330", k)
    ensures DetectAircraftType(Some(s)) == A350
  {
    var m := Upper(s);
    NotIncludesCharAbsent(m, "A320", 2);
    NotIncludesCharAbsent(m, "A321", 2);
    NotIncludesCharAbsent(m, "A319", 2);
    NotIncludesNowhere(m, "A330");
    IncludesAt(m, "A350", i);
  }

  /** A model naming A380, without the digits 1, 2 and 5 and without A330, is an A380. */
  lemma A380Rule(s: string, i: int)
    requires '1' !in Upper(s) && '2' !in Upper(s) && '5' !in Upper(s) && OccursAt(Upper(s), "A380", i)
    requires forall k :: !OccursAt(Upper(s), "A330", k)
    ensures DetectAircraftType(Some(s)) == A380
  {
    var m := Upper(s);
    NotIncludesCharAbsent(m, "A320", 2);
    NotIncludesCharAbsent(m, "A321", 2);
    NotIncludesCharAbsent(m, "A319", 2);
    NotIncludesNowhere(m, "A330");
    NotIncludesCharAbsent(m, "A350", 2);
    IncludesAt(m, "A380", i);
  }

  /** A model naming 737 without 'A' (so without MAX or any Airbus type) is the generic 737, B738. */
  lemma B738Rule(s: string, i: int)
    requires 'A' !in Upper(s) && OccursAt(Upper(s), "737", i)
    ensures DetectAircraftType(Some(s)) == B738
  {
    var m := Upper(s);
    NoAirbusRule(m);
    NotIncludesCharAbsent(m, "MAX", 1);
    IncludesAt(m, "737", i);
    assert FiresFirst(RULES, m, 8);
    DetectCodeIff(Some(s), 8);
  }

  /** A model naming 787 without the digit 3 (no Airbus type, no 737) is a B787. */
  lemma B787Rule(s: string, i: int)
    requires '3' !in Upper(s) && OccursAt(Upper(s), "787", i)
    ensures DetectAircraftType(Some(s)) == B787
  {
    var m := Upper(s);
    NoAirbusRule(m);
    NotIncludesCharAbsent(m, "737", 1);
    IncludesAt(m, "787", i);
    assert FiresFirst(RULES, m, 9);
    DetectCodeIff(Some(s), 9);
  }

  /** A model naming 777 without the digits 3 and 8 (no Airbus type, 737 or 787) is a B777. */
  lemma B777Rule(s: string, i: int)
    requires '3' !in Upper(s) && '8' !in Upper(s) && OccursAt(Upper(s), "777", i)
    ensures DetectAircraftType(Some(s)) == B777
  {
    var m := Upper(s);
    NoAirbusRule(m);
    NotIncludesCharAbsent(m, "737", 1);
    NotIncludesCharAbsent(m, "787", 1);
    IncludesAt(m, "777", i);
    assert FiresFirst(RULES, m, 10);
    DetectCodeIff(Some(s), 10);
  }

  /** A model naming E195 without '7' and '0', and without 'A' or '3', is an E195. */
  lemma E195Rule(s: string, i: int)
    requires ('A' !in Upper(s) || '3' !in Upper(s)) && '7' !in Upper(s) && '0' !in Upper(s)
    requires OccursAt(Upper(s), "E195", i)
    ensures DetectAircraftType(Some(s)) == E195
  {
    var m := Upper(s);
    NoAirbusRule(m);
    NoBoeingRule(m);
    NotIncludesCharAbsent(m, "E190", 3);
    NotIncludesCharAbsent(m, "ERJ-190", 6);
    IncludesAt(m, "E195", i);
    assert FiresFirst(RULES, m, 12);
    DetectCodeIff(Some(s), 12);
  }

  /** A model naming ATR without '3' and '7', and without 'E' or '1', is an ATR. */
  lemma ATRRule(s: string, i: int)
    requires '3' !in Upper(s) && '7' !in Upper(s) && ('E' !in Upper(s) || '1' !in Upper(s))
    requires OccursAt(Upper(s), "ATR", i)
    ensures DetectAircraftType(Some(s)) == ATR
  {
    var m := Upper(s);
    NoAirbusRule(m);
    NoBoeingRule(m);
    NoEmbraerRule(m);
    IncludesAt(m, "ATR", i);
    assert FiresFirst(RULES, m, 13);
    DetectCodeIff(Some(s), 13);
  }

  // ---------------------------------------------------------------------------
  // Round trip of the rule table: a model that is exactly one of the table's
  // patterns (both patterns of a two-pattern rule, concatenated), in any case,
  // is classified as that pattern's rule.

  /** The Airbus patterns give the Airbus rules' codes. */
  lemma AirbusPatternsRoundTrip(s: string)
    ensures Upper(s) == "A320NEO" ==> DetectAircraftType(Some(s)) == A320neo
    ensures Upper(s) == "A321" ==> DetectAircraftType(Some(s)) == A321
    ensures Upper(s) == "A319" ==> DetectAircraftType(Some(s)) == A319
    ensures Upper(s) == "A320" ==> DetectAircraftType(Some(s)) == A320
    ensures Upper(s) == "A330" ==> DetectAircraftType(Some(s)) == A330
    ensures Upper(s) == "A350" ==> DetectAircraftType(Some(s)) == A350
    ensures Upper(s) == "A380" ==> DetectAircraftType(Some(s)) == A380
  {
    if Upper(s) == "A320NEO" {
      NeoRule(s, 0, 4);
    } else if Upper(s) == "A321" {
      A321Rule(s, 0);
    } else if Upper(s) == "A319" {
      A319Rule(s, 0);
    } else if Upper(s) == "A320" {
      A320Rule(s, 0);
    } else if Upper(s) == "A330" {
      A330Rule(s, 0);
    } else if Upper(s) == "A350" {
      A350Rule(s, 0);
    } else if Upper(s) == "A380" {
      A380Rule(s, 0);
    }
  }

  /** The Boeing patterns give the Boeing rules' codes. */
  lemma BoeingPatternsRoundTrip(s: string)
    ensures Upper(s) == "737MAX" ==> DetectAircraftType(Some(s)) == B38M
    ensures Upper(s) == "737" ==> DetectAircraftType(Some(s)) == B738
    ensures Upper(s) == "787" ==> DetectAircraftType(Some(s)) == B787
    ensures Upper(s) == "777" ==> DetectAircraftType(Some(s)) == B777
  {
    if Upper(s) == "737MAX" {
      MaxRule(s, 0, 3);
    } else if Upper(s) == "737" {
      B738Rule(s, 0);
    } else if Upper(s) == "787" {
      B787Rule(s, 0);
    } else if Upper(s) == "777" {
      B777Rule(s, 0);
    }
  }

  /** The regional patterns give the regional rules' codes. */
  lemma RegionalPatternsRoundTrip(s: string)
    ensures Upper(s) == "E190" ==> DetectAircraftType(Some(s)) == E190
    ensures Upper(s) == "ERJ-190" ==> DetectAircraftType(Some(s)) == E190
    ensures Upper(s) == "E195" ==> DetectAircraftType(Some(s)) == E195
    ensures Upper(s) == "ATR" ==> DetectAircraftType(Some(s)) == ATR
    ensures Upper(s) == "CRJ" ==> DetectAircraftType(Some(s)) == CRJ
    ensures Upper(s) == "DASH" ==> DetectAircraftType(Some(s)) == CRJ
  {
    if Upper(s) == "E190" || Upper(s) == "ERJ-190" {
      E190Rule(s, 0);
    } else if Upper(s) == "E195" {
      E195Rule(s, 0);
    } else if Upper(s) == "ATR" {
      ATRRule(s, 0);
    } else if Upper(s) == "CRJ" || Upper(s) == "DASH" {
      CrjRule(s, 0);
    }
  }

  /**
   * Every three-character equipment code other than 737, 787, 777, ATR and CRJ
   * falls through to the baseline code: all other patterns are longer.
   */
  lemma ThreeCharCodeRule(s: string)
    requires |Upper(s)| == 3
    requires Upper(s) != "737" && Upper(s) != "787" && Upper(s) != "777"
    requires Upper(s) != "ATR" && Upper(s) != "CRJ"
    ensures DetectAircraftType(Some(s)) == A320
  {
    var m := Upper(s);
    NotIncludesLonger(m, "A320");
    NotIncludesLonger(m, "A321");
    NotIncludesLonger(m, "A319");
    NotIncludesLonger(m, "A330");
    NotIncludesLonger(m, "A350");
    NotIncludesLonger(m, "A380");
    NotIncludesSameLength(m, "737");
    NotIncludesSameLength(m, "787");
    NotIncludesSameLength(m, "777");
    NotIncludesLonger(m, "E190");
    NotIncludesLonger(m, "ERJ-190");
    NotIncludesLonger(m, "E195");
    NotIncludesSameLength(m, "ATR");
    NotIncludesSameLength(m, "CRJ");
    NotIncludesLonger(m, "DASH");
    assert NoneFires(RULES, m);
    DetectDefaultIff(Some(s));
  }

  /**
   * The short equipment codes "73H" (737-800 with winglets) and "7M8"
   * (737 MAX 8) contain no "737", so they fall through to the baseline code.
   */
  lemma ShortBoeingCodesFallThrough(s: string)
    requires Upper(s) == "73H" || Upper(s) == "7M8"
    ensures DetectAircraftType(Some(s)) == A320
  {
    ThreeCharCodeRule(s);
  }
}
