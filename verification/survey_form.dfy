/**
 * The survey form's submit handler: raw form values are coerced into bounded
 * integers, `isViewed` is forced to false, the required fields are checked,
 * and only a complete payload is sent to the server.
 */
module SurveySubmission {
  import opened Js
  import opened Seqs

  const QuestionKeys: seq<string> :=
    ["question1", "question2", "question3", "question4",
     "question5", "question6", "question7", "question8"]

  /** The fields the handler checks, in the order it reports them. */
  const RequiredFields: seq<string> := ["userId", "name"] + QuestionKeys

  /** The fields the handler overwrites; every other field passes through. */
  const NormalisedKeys: set<string> :=
    {"userId", "age", "question1", "question2", "question3", "question4",
     "question5", "question6", "question7", "question8", "isViewed"}

  /** The object has an integer at `key` within `lo..hi`. */
  predicate HasIntIn(o: Object, key: string, lo: int, hi: int) {
    key in o && o[key].Num? && lo <= o[key].n <= hi
  }

  /** `Math.max(0, Math.min(9999, parseInt(data.userId) || 0))` */
  function UserId(data: Object): (r: int)
    ensures 0 <= r <= 9999
    ensures FallsBack(Get(data, "userId")) ==> r == 0
    ensures !FallsBack(Get(data, "userId")) ==> r == Clamp(0, 9999, ParseInt(Get(data, "userId")).value)
  {
    Clamp(0, 9999, ParseIntOr(Get(data, "userId"), 0))
  }

  /** `Math.max(1, Math.min(100, parseInt(data.age) || 25))` */
  function Age(data: Object): (r: int)
    ensures 1 <= r <= 100
    ensures FallsBack(Get(data, "age")) ==> r == 25
    ensures !FallsBack(Get(data, "age")) ==> r == Clamp(1, 100, ParseInt(Get(data, "age")).value)
  {
    Clamp(1, 100, ParseIntOr(Get(data, "age"), 25))
  }

  /** `Math.max(1, Math.min(5, parseInt(data[key]) || 1))` */
  function QuestionScore(data: Object, key: string): (r: int)
    ensures 1 <= r <= 5
    ensures FallsBack(Get(data, key)) ==> r == 1
    ensures !FallsBack(Get(data, key)) ==> r == Clamp(1, 5, ParseInt(Get(data, key)).value)
  {
    Clamp(1, 5, ParseIntOr(Get(data, key), 1))
  }

  /** The value `processedData` holds for one of the overwritten fields. */
  function NormalisedValue(data: Object, key: string): JsValue
    requires key in NormalisedKeys
  {
    if key == "userId" then Num(UserId(data))
    else if key == "age" then Num(Age(data))
    else if key == "isViewed" then Bool(false)
    else Num(QuestionScore(data, key))
  }

  /** The `processedData` object built from the raw form values. */
  function Normalise(data: Object): (r: Object)
    ensures r.Keys == data.Keys + NormalisedKeys
    ensures forall k :: k in data && k !in NormalisedKeys ==> r[k] == data[k]
    ensures r["isViewed"] == Bool(false)
    ensures HasIntIn(r, "userId", 0, 9999)
    ensures HasIntIn(r, "age", 1, 100)
    ensures forall q :: q in QuestionKeys ==> HasIntIn(r, q, 1, 5)
  {
    data + map k | k in NormalisedKeys :: NormalisedValue(data, k)
  }

  /** What `Normalise` stores at one key. */
  lemma NormaliseAt(data: Object, key: string)
    requires key in data || key in NormalisedKeys
    ensures Normalise(data)[key] ==
              if key in NormalisedKeys then NormalisedValue(data, key) else data[key]
  {
  }

  /** Each question key is normalised as a question score. */
  lemma QuestionNormalised(data: Object, q: string)
    requires q in QuestionKeys
    ensures q in NormalisedKeys && Normalise(data)[q] == Num(QuestionScore(data, q))
  {
    assert q != "userId" && q != "age" && q != "isViewed" by {
      assert |q| == 9;
    }
    NormaliseAt(data, q);
  }

  /** An input `parseInt` rejects, or that parses to 0, takes the fallback. */
  predicate FallsBack(v: JsValue) {
    ParseInt(v).None? || ParseInt(v) == Some(0)
  }

  /**
   * The fallbacks: userId 0, age 25, a question 1; an input that parses to a
   * non-zero integer is clamped instead.
   */
  lemma NormaliseFallbacks(data: Object)
    ensures FallsBack(Get(data, "userId")) ==> Normalise(data)["userId"] == Num(0)
    ensures FallsBack(Get(data, "age")) ==> Normalise(data)["age"] == Num(25)
    ensures forall q :: q in QuestionKeys && FallsBack(Get(data, q)) ==> Normalise(data)[q] == Num(1)
    ensures !FallsBack(Get(data, "userId")) ==>
              Normalise(data)["userId"] == Num(Clamp(0, 9999, ParseInt(Get(data, "userId")).value))
    ensures !FallsBack(Get(data, "age")) ==>
              Normalise(data)["age"] == Num(Clamp(1, 100, ParseInt(Get(data, "age")).value))
    ensures forall q :: q in QuestionKeys && !FallsBack(Get(data, q)) ==>
              Normalise(data)[q] == Num(Clamp(1, 5, ParseInt(Get(data, q)).value))
  {
    NormaliseAt(data, "userId");
    NormaliseAt(data, "age");
    forall q | q in QuestionKeys
      ensures Normalise(data)[q] == Num(QuestionScore(data, q))
    {
      QuestionNormalised(data, q);
    }
  }

  /** A normalised field normalises to itself. */
  lemma NormalisedValueFixed(data: Object, key: string)
    requires key in NormalisedKeys
    ensures NormalisedValue(Normalise(data), key) == Normalise(data)[key]
  {
    var once := Normalise(data);
    NormaliseAt(data, key);
    if key == "userId" {
      ParseIntOrOfNumber(UserId(data), 0);
    } else if key == "age" {
      ParseIntOrOfNumber(Age(data), 25);
    } else if key != "isViewed" {
      ParseIntOrOfNumber(QuestionScore(data, key), 1);
    }
  }

  /** Normalising an already normalised record changes nothing. */
  lemma NormaliseIdempotent(data: Object)
    ensures Normalise(Normalise(data)) == Normalise(data)
  {
    var once := Normalise(data);
    var overrides := map k | k in NormalisedKeys :: NormalisedValue(once, k);
    forall k | k in NormalisedKeys ensures overrides[k] == once[k] {
      NormalisedValueFixed(data, k);
    }
    assert once + overrides == once;
  }

  /** `!processedData[field] && processedData[field] !== 0` */
  predicate IsMissing(processed: Object, field: string) {
    !Truthy(Get(processed, field)) && Get(processed, field) != Num(0)
  }

  /** The required fields that are missing, in `RequiredFields` order. */
  function MissingFields(processed: Object): (r: seq<string>)
    ensures forall f :: f in r <==> f in RequiredFields && IsMissing(processed, f)
  {
    Filter(RequiredFields, f => IsMissing(processed, f))
  }

  /**
   * After normalisation userId is an integer >= 0 and every question is
   * >= 1, so the only field that can be reported missing is `name`, and it
   * is reported exactly when the submitted name is falsy.
   */
  lemma {:induction false} OnlyNameCanBeMissing(data: Object)
    ensures MissingFields(Normalise(data)) ==
              if IsMissing(data, "name") then ["name"] else []
  {
    var processed := Normalise(data);
    var p := f => IsMissing(processed, f);
    assert RequiredFields == ["userId"] + (["name"] + QuestionKeys);
    FilterConcat(["userId"], ["name"] + QuestionKeys, p);
    FilterConcat(["name"], QuestionKeys, p);
    NormalisedPresent(data);
    assert Filter(["userId"], p) == [];
    assert Filter(QuestionKeys, p) == [];
    assert Filter(["name"], p) == if IsMissing(data, "name") then ["name"] else [];
  }

  /** userId and the questions are never missing once normalised; name passes through. */
  lemma NormalisedPresent(data: Object)
    ensures !IsMissing(Normalise(data), "userId")
    ensures forall i :: 0 <= i < |QuestionKeys| ==> !IsMissing(Normalise(data), QuestionKeys[i])
    ensures IsMissing(Normalise(data), "name") == IsMissing(data, "name")
  {
    NormaliseAt(data, "userId");
    forall i | 0 <= i < |QuestionKeys| ensures !IsMissing(Normalise(data), QuestionKeys[i]) {
      QuestionNormalised(data, QuestionKeys[i]);
    }
    assert "name" !in NormalisedKeys by {
      assert |"name"| == 4;
    }
  }

  /** What a press of the submit button does before the server answers. */
  datatype SubmitStart =
    | Ignored                          // the button is disabled while a submission is in flight
    | Rejected(missing: seq<string>)   // reported to the user; nothing sent
    | Sent(payload: Object)            // handed to `createSurvey`; the button is now disabled

  /** How an in-flight submission ends. */
  datatype SubmitOutcome =
    | Created(payload: Object)         // the server stored the payload
    | Failed(payload: Object)          // the server call threw

  /** The form component's submission state. */
  class SurveyForm {
    /** `isSubmitting`: disables the submit button while a submission is in flight. */
    var isSubmitting: bool
    /** The payload awaiting the server's answer, if any. */
    var inFlight: Option<Object>
    /** The payloads handed to `createSurvey`, in call order. */
    var created: seq<Object>

    /** A payload is in flight exactly while the button is disabled. */
    predicate Valid()
      reads this
    {
      isSubmitting <==> inFlight.Some?
    }

    constructor ()
      ensures Valid() && !isSubmitting && created == []
    {
      isSubmitting := false;
      inFlight := None;
      created := [];
    }

    /**
     * A press of the submit button, up to the `await` of `createSurvey`. A
     * disabled button does nothing; a payload with a missing field is
     * reported and never sent, and `isSubmitting` is false again at once;
     * otherwise the normalised payload is sent and stays in flight.
     */
    method Submit(data: Object) returns (start: SubmitStart)
      requires Valid()
      modifies this
      ensures Valid()
      ensures old(isSubmitting) ==>
                start == Ignored && isSubmitting && inFlight == old(inFlight) && created == old(created)
      ensures !old(isSubmitting) && |MissingFields(Normalise(data))| > 0 ==>
                start == Rejected(MissingFields(Normalise(data))) && !isSubmitting && created == old(created)
      ensures !old(isSubmitting) && |MissingFields(Normalise(data))| == 0 ==>
                start == Sent(Normalise(data)) && isSubmitting && inFlight == Some(Normalise(data)) &&
                created == old(created) + [Normalise(data)]
    {
      if isSubmitting {
        return Ignored;
      }
      isSubmitting := true;
      var processed := Normalise(data);
      var missing := MissingFields(processed);
      if |missing| > 0 {
        start := Rejected(missing);
        isSubmitting := false;
        return;
      }
      created := created + [processed];
      inFlight := Some(processed);
      start := Sent(processed);
    }

    /**
     * The server's answer to the submission in flight (`serverAccepts`):
     * the `finally` clears `isSubmitting` whichever way it went.
     */
    method Settle(serverAccepts: bool) returns (outcome: SubmitOutcome)
      requires Valid() && isSubmitting
      modifies this
      ensures Valid() && !isSubmitting && created == old(created)
      ensures outcome == if serverAccepts then Created(old(inFlight).value) else Failed(old(inFlight).value)
    {
      var payload := inFlight.value;
      outcome := if serverAccepts then Created(payload) else Failed(payload);
      isSubmitting := false;
      inFlight := None;
    }
  }

  /**
   * Pressing submit twice before the server answers sends one payload: a
   * record with a name is never rejected, and the second press finds the
   * button disabled.
   */
  method DoubleSubmitSendsOnce(first: Object, second: Object, serverAccepts: bool)
    returns (starts: seq<SubmitStart>, sent: seq<Object>, outcome: SubmitOutcome)
    requires !IsMissing(first, "name")
    ensures starts == [Sent(Normalise(first)), Ignored]
    ensures sent == [Normalise(first)]
    ensures outcome == if serverAccepts then Created(Normalise(first)) else Failed(Normalise(first))
  {
    OnlyNameCanBeMissing(first);
    var form := new SurveyForm();
    var a := form.Submit(first);
    var b := form.Submit(second);
    outcome := form.Settle(serverAccepts);
    starts := [a, b];
    sent := form.created;
  }
}
