/**
 * The input checks `IRSPhaseApp.compute` runs before computing anything:
 * the three fields are stripped, then checked in a fixed order (all filled,
 * N an integer, N in range, the two angles real numbers).
 */
module Validation {
  import opened Wrappers
  import opened TextInput

  /** Upper bound on the element count. */
  const MaxElements: nat := 10000

  /** The parameters of one computation: element count and the two angles in degrees. */
  datatype Geometry = Geometry(count: nat, incident: real, reflection: real)

  /** Why a compute request was refused; every kind is shown in an "Input Error" dialog. */
  datatype InputError =
    | MissingField              // some field is blank after stripping
    | BadCount(text: string)    // int() rejected the element count
    | CountOutOfRange(n: int)   // the element count is outside [1, MaxElements]
    | BadAngle(text: string)    // float() rejected an angle

  const MissingFieldMessage := "Fill all input fields."
  const CountRangeMessage := "N must be between 1 and 10000."

  /** The text of the dialog for each kind of input error. */
  function Message(e: InputError): (text: string)
    ensures text != []
  {
    match e
    case MissingField => MissingFieldMessage
    case BadCount(t) => "invalid literal for int() with base 10: '" + t + "'"
    case CountOutOfRange(_) => CountRangeMessage
    case BadAngle(t) => "could not convert string to float: '" + t + "'"
  }

  /** Different kinds of input error never share a dialog text, so the dialog tells which check failed. */
  lemma MessagesTellKindsApart(e1: InputError, e2: InputError)
    requires e1.MissingField? != e2.MissingField? || e1.BadCount? != e2.BadCount?
          || e1.CountOutOfRange? != e2.CountOutOfRange? || e1.BadAngle? != e2.BadAngle?
    ensures Message(e1) != Message(e2)
  {
    MessageOpening(e1);
    MessageOpening(e2);
  }

  /** The first two characters of each dialog text. */
  lemma MessageOpening(e: InputError)
    ensures Message(e)[..2] == match e
      case MissingField => "Fi"
      case BadCount(_) => "in"
      case CountOutOfRange(_) => "N "
      case BadAngle(_) => "co"
  {
  }

  /**
   * The checks of `compute`, in the order `compute` runs them. `parseFloat`
   * stands for Python's `float()` on an already stripped string.
   */
  function Validate(countText: string, incidentText: string, reflectionText: string,
                    parseFloat: string -> Option<real>): (r: Result<Geometry, InputError>)
    ensures r.Ok? ==> 1 <= r.value.count <= MaxElements
  {
    var countRaw, incidentRaw, reflectionRaw := Strip(countText), Strip(incidentText), Strip(reflectionText);
    if countRaw == [] || incidentRaw == [] || reflectionRaw == [] then Err(MissingField)
    else match ParseInt(countRaw)
      case None => Err(BadCount(countRaw))
      case Some(n) =>
        if n <= 0 || n > MaxElements then Err(CountOutOfRange(n))
        else match parseFloat(incidentRaw)
          case None => Err(BadAngle(incidentRaw))
          case Some(incident) =>
            match parseFloat(reflectionRaw)
            case None => Err(BadAngle(reflectionRaw))
            case Some(reflection) => Ok(Geometry(n, incident, reflection))
  }

  /** The missing-field error is reported exactly when some field is blank, whatever the others hold. */
  lemma MissingIffBlank(countText: string, incidentText: string, reflectionText: string,
                        parseFloat: string -> Option<real>)
    ensures Validate(countText, incidentText, reflectionText, parseFloat) == Err(MissingField)
            <==> IsBlank(countText) || IsBlank(incidentText) || IsBlank(reflectionText)
  {
  }

  /**
   * Once all fields are filled and N is an integer, the range error is reported
   * exactly when N is outside [1, 10000], before the angles are even looked at.
   */
  lemma RangeCheckedBeforeAngles(countText: string, incidentText: string, reflectionText: string,
                                 parseFloat: string -> Option<real>, n: int)
    requires !IsBlank(countText) && !IsBlank(incidentText) && !IsBlank(reflectionText)
    requires ParseInt(Strip(countText)) == Some(n)
    ensures Validate(countText, incidentText, reflectionText, parseFloat) == Err(CountOutOfRange(n))
            <==> n < 1 || n > MaxElements
  {
  }

  /** A malformed count is reported before any range or angle problem. */
  lemma CountParsedBeforeAngles(countText: string, incidentText: string, reflectionText: string,
                                parseFloat: string -> Option<real>)
    requires !IsBlank(countText) && !IsBlank(incidentText) && !IsBlank(reflectionText)
    requires ParseInt(Strip(countText)) == None
    ensures Validate(countText, incidentText, reflectionText, parseFloat) == Err(BadCount(Strip(countText)))
  {
  }

  /**
   * With all fields filled and N in range, a failing `float()` on an angle is
   * the error, and the incident angle is parsed before the reflection angle.
   */
  lemma AngleParsedLast(countText: string, incidentText: string, reflectionText: string,
                        parseFloat: string -> Option<real>, n: int)
    requires !IsBlank(countText) && !IsBlank(incidentText) && !IsBlank(reflectionText)
    requires ParseInt(Strip(countText)) == Some(n) && 1 <= n <= MaxElements
    ensures parseFloat(Strip(incidentText)) == None ==>
      Validate(countText, incidentText, reflectionText, parseFloat) == Err(BadAngle(Strip(incidentText)))
    ensures parseFloat(Strip(incidentText)).Some? && parseFloat(Strip(reflectionText)) == None ==>
      Validate(countText, incidentText, reflectionText, parseFloat) == Err(BadAngle(Strip(reflectionText)))
  {
  }

  /** Validation succeeds exactly when every field parses and N is in range; the result carries the parsed values. */
  lemma AcceptedIff(countText: string, incidentText: string, reflectionText: string,
                    parseFloat: string -> Option<real>, g: Geometry)
    ensures Validate(countText, incidentText, reflectionText, parseFloat) == Ok(g)
            <==> && ParseInt(Strip(countText)) == Some(g.count as int)
                 && 1 <= g.count <= MaxElements
                 && !IsBlank(incidentText) && !IsBlank(reflectionText)
                 && parseFloat(Strip(incidentText)) == Some(g.incident)
                 && parseFloat(Strip(reflectionText)) == Some(g.reflection)
  {
  }

  /** `int()` on the boundary literals. */
  lemma BoundaryLiterals()
    ensures ParseInt("0") == Some(0) && ParseInt("1") == Some(1)
    ensures ParseInt("10000") == Some(10000) && ParseInt("10001") == Some(10001)
  {
    assert ShowNat(1) == "1";
    assert ShowNat(10) == ShowNat(1) + "0";
    assert ShowNat(100) == ShowNat(10) + "0";
    assert ShowNat(1000) == ShowNat(100) + "0";
    assert ShowNat(10000) == ShowNat(1000) + "0";
    assert ShowNat(10001) == ShowNat(1000) + "1";
    ParseIntShowInt(0);
    ParseIntShowInt(1);
    assert ShowInt(10000) == "10000";
    assert ShowInt(10001) == "10001";
    ParseIntShowInt(10000);
    ParseIntShowInt(10001);
  }

  /** N = 0 and N = 10001 are refused with the range error, whatever the angle fields hold. */
  lemma CountBoundariesRefused(incidentText: string, reflectionText: string, parseFloat: string -> Option<real>)
    requires !IsBlank(incidentText) && !IsBlank(reflectionText)
    ensures Validate("0", incidentText, reflectionText, parseFloat) == Err(CountOutOfRange(0))
    ensures Validate("10001", incidentText, reflectionText, parseFloat) == Err(CountOutOfRange(10001))
  {
    BoundaryLiterals();
    assert Strip("0") == "0";
    assert Strip("10001") == "10001";
  }

  /** N = 1 and N = 10000 are accepted when both angles parse. */
  lemma CountBoundariesAccepted(incidentText: string, reflectionText: string, parseFloat: string -> Option<real>,
                                incident: real, reflection: real)
    requires !IsBlank(incidentText) && !IsBlank(reflectionText)
    requires parseFloat(Strip(incidentText)) == Some(incident)
    requires parseFloat(Strip(reflectionText)) == Some(reflection)
    ensures Validate("1", incidentText, reflectionText, parseFloat) == Ok(Geometry(1, incident, reflection))
    ensures Validate("10000", incidentText, reflectionText, parseFloat) == Ok(Geometry(10000, incident, reflection))
  {
    BoundaryLiterals();
    assert Strip("1") == "1";
    assert Strip("10000") == "10000";
    AcceptedIff("1", incidentText, reflectionText, parseFloat, Geometry(1, incident, reflection));
    AcceptedIff("10000", incidentText, reflectionText, parseFloat, Geometry(10000, incident, reflection));
  }
}
