/** The form that opens a conditional stream: its fields, the check before
    submitting, the token's contract address, the conditions handed on, and
    what it shows afterwards. The submit callback's outcome is a parameter. */
module ConditionalForm {
  import opened Common
  import opened Text

  const FillAllFieldsMessage := "Please fill in all fields"
  const SubmitFailedMessage := "Failed to create stream"
  const DefaultExerciseUnits := "50"
  /** Twenty-four hours, in minutes. */
  const DefaultTimeframe := "1440"
  /** The values of the timeframe selector: 10 minutes to 24 hours. */
  const TimeframeOptions: seq<string> := ["10", "60", "360", "720", "1440"]

  datatype Token = ETH | USDC

  /** The deployed Super Token addresses. */
  datatype Contracts = Contracts(ethx: string, usdcx: string)

  /** ETHx for ETH, USDCx for anything else. */
  function TokenAddress(token: Token, contracts: Contracts): (a: string)
    ensures token == ETH ==> a == contracts.ethx
    ensures token != ETH ==> a == contracts.usdcx
  {
    if token == ETH then contracts.ethx else contracts.usdcx
  }

  /** With two distinct deployed addresses, the address handed on tells which
      token was chosen. */
  lemma TokenAddressDeterminesToken(t1: Token, t2: Token, contracts: Contracts)
    requires contracts.ethx != contracts.usdcx
    ensures TokenAddress(t1, contracts) == TokenAddress(t2, contracts) <==> t1 == t2
  {
  }

  /** The value of `Number(s)`: a whole number when `s` is plain decimal
      digits ("" gives 0), otherwise a value the model does not follow. */
  datatype JsNumber = Whole(value: nat) | Unparsed

  function Number(s: string): JsNumber {
    if AllDigits(s) then Whole(DecimalValue(s)) else Unparsed
  }

  /** A whole number printed in decimal reads back as itself. */
  lemma NumberReadsDecimal(n: nat)
    ensures Number(NatToDecimal(n)) == Whole(n)
  {
    DecimalRoundTrip(n);
  }

  datatype SubmittedConditions = SubmittedConditions(requiredExerciseUnits: JsNumber, timeframeInMinutes: JsNumber)

  function ToConditions(exerciseUnits: string, timeframe: string): SubmittedConditions {
    SubmittedConditions(Number(exerciseUnits), Number(timeframe))
  }

  /** Fields holding decimal numerals hand on exactly the numbers they show;
      every timeframe on offer, and the defaults, are such numerals. */
  lemma ConditionsCarryFieldValues(units: nat, minutes: nat)
    ensures ToConditions(NatToDecimal(units), NatToDecimal(minutes)) == SubmittedConditions(Whole(units), Whole(minutes))
    ensures forall k | 0 <= k < |TimeframeOptions| :: Number(TimeframeOptions[k]).Whole?
    ensures ToConditions(DefaultExerciseUnits, DefaultTimeframe) == SubmittedConditions(Whole(50), Whole(1440))
  {
    NumberReadsDecimal(units);
    NumberReadsDecimal(minutes);
    assert NatToDecimal(50) == DefaultExerciseUnits;
    assert NatToDecimal(1440) == DefaultTimeframe;
    NumberReadsDecimal(50);
    NumberReadsDecimal(1440);
    assert forall k | 0 <= k < |TimeframeOptions| :: AllDigits(TimeframeOptions[k]);
  }

  /** What `onSubmit` is called with. */
  datatype Submission = Submission(receiver: string, token: string, flowRate: string, conditions: SubmittedConditions)

  /** What a rejected `onSubmit` threw: an `Error` or some other value. */
  datatype Thrown = ErrorObject(message: string) | OtherValue

  datatype SubmitOutcome = Fulfilled | Failed(thrown: Thrown)

  /** The error shown once `onSubmit` has settled. */
  function SubmitError(outcome: SubmitOutcome): (text: string)
    ensures outcome.Fulfilled? ==> text == ""
    ensures outcome == Failed(OtherValue) ==> text == SubmitFailedMessage
    ensures outcome.Failed? && outcome.thrown.ErrorObject? ==> text == outcome.thrown.message
    ensures text == "" <==> outcome.Fulfilled? || outcome == Failed(ErrorObject(""))
  {
    match outcome
    case Fulfilled => ""
    case Failed(ErrorObject(m)) => m
    case Failed(OtherValue) => SubmitFailedMessage
  }

  /** The check at the top of `handleSubmit`. */
  predicate FieldsFilled(receiver: string, flowRate: string, exerciseUnits: string, timeframe: string) {
    receiver != "" && flowRate != "" && exerciseUnits != "" && timeframe != ""
  }

  /** The submit button's `disabled`. */
  predicate SubmitDisabled(receiver: string, flowRate: string, isSubmitting: bool) {
    receiver == "" || flowRate == "" || isSubmitting
  }

  /** The button looks only at receiver and rate: an idle form whose fields
      are all filled has it enabled, but an enabled button still reaches the
      "fill in all fields" error when the exercise count or timeframe is
      empty. */
  lemma ButtonAndGuard(receiver: string, flowRate: string, exerciseUnits: string, timeframe: string)
    ensures FieldsFilled(receiver, flowRate, exerciseUnits, timeframe) ==> !SubmitDisabled(receiver, flowRate, false)
    ensures !SubmitDisabled(receiver, flowRate, false) ==>
      (FieldsFilled(receiver, flowRate, exerciseUnits, timeframe) <==> exerciseUnits != "" && timeframe != "")
  {
  }

  class ConditionalStreamForm {
    var receiver: string
    var flowRate: string
    var selectedToken: Token
    var isSubmitting: bool
    var exerciseUnits: string
    var timeframe: string
    var error: string

    constructor ()
      ensures receiver == "" && flowRate == "" && selectedToken == ETH && !isSubmitting
      ensures exerciseUnits == DefaultExerciseUnits && timeframe == DefaultTimeframe && error == ""
      ensures SubmitButtonDisabled()
    {
      receiver := "";
      flowRate := "";
      selectedToken := ETH;
      isSubmitting := false;
      exerciseUnits := DefaultExerciseUnits;
      timeframe := DefaultTimeframe;
      error := "";
    }

    predicate SubmitButtonDisabled()
      reads this
    {
      SubmitDisabled(receiver, flowRate, isSubmitting)
    }

    /** A receiver was picked in the search box. */
    method SelectReceiver(address: string)
      modifies this`receiver, this`error
      ensures receiver == address && error == ""
    {
      error := "";
      receiver := address;
    }

    /** The flow-rate input reported a new rate (wei per second). */
    method ChangeFlowRate(value: string)
      modifies this`flowRate, this`error
      ensures flowRate == value && error == ""
    {
      error := "";
      flowRate := value;
    }

    method ChangeExerciseUnits(value: string)
      modifies this`exerciseUnits, this`error
      ensures exerciseUnits == value && error == ""
    {
      error := "";
      exerciseUnits := value;
    }

    method ChangeTimeframe(value: string)
      modifies this`timeframe, this`error
      ensures timeframe == value && error == ""
    {
      error := "";
      timeframe := value;
    }

    /** The token buttons; the error stays as it is. */
    method SelectToken(token: Token)
      modifies this`selectedToken
      ensures selectedToken == token
    {
      selectedToken := token;
    }

    /** `handleSubmit`: with an empty field only the error is set; otherwise
        `onSubmit` gets the fields (token turned into its address, numbers
        converted), its failure becomes the error, and submitting ends.
        `submitted` is what `onSubmit` was called with, if it was. */
    method HandleSubmit(contracts: Contracts, outcome: SubmitOutcome) returns (submitted: Option<Submission>)
      modifies this`error, this`isSubmitting
      ensures !FieldsFilled(receiver, flowRate, exerciseUnits, timeframe) ==>
        submitted == None && error == FillAllFieldsMessage && isSubmitting == old(isSubmitting)
      ensures FieldsFilled(receiver, flowRate, exerciseUnits, timeframe) ==>
        && submitted == Some(Submission(receiver, TokenAddress(selectedToken, contracts), flowRate,
                                        ToConditions(exerciseUnits, timeframe)))
        && error == SubmitError(outcome)
        && !isSubmitting
        && !SubmitButtonDisabled()
    {
      error := "";
      if !FieldsFilled(receiver, flowRate, exerciseUnits, timeframe) {
        error := FillAllFieldsMessage;
        submitted := None;
        return;
      }
      isSubmitting := true;
      var tokenAddress := TokenAddress(selectedToken, contracts);
      submitted := Some(Submission(receiver, tokenAddress, flowRate, ToConditions(exerciseUnits, timeframe)));
      match outcome {
        case Fulfilled =>
        case Failed(ErrorObject(m)) => error := m;
        case Failed(OtherValue) => error := SubmitFailedMessage;
      }
      isSubmitting := false;
    }
  }
}
