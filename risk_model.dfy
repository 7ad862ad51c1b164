/**
 * The Risk document: its schema validators and the pre-save hook that derives
 * `severity` from `impact * probability`.
 *
 * Mongoose behaviour the schema relies on is written out: `trim: true` trims a
 * string when it is assigned, `default` fills an absent field when the document
 * is built, each path reports only its first failing validator (`required`
 * always runs first), and validation runs as the first pre-save step, before
 * the schema's own pre('save') hook.
 */
module RiskModel {
  import opened Wrappers
  import Text

  const SeverityLevels: seq<string> := ["low", "medium", "high", "critical"]
  const StatusValues: seq<string> := ["open", "mitigated", "accepted"]
  const DefaultSeverity: string := "low"
  const DefaultStatus: string := "open"
  const TitleMaxLength: nat := 100
  const DescriptionMinLength: nat := 10
  const DescriptionMaxLength: nat := 500
  /** Impact and probability are both bounded by these. */
  const RatingMin: int := 1
  const RatingMax: int := 5

  // ---------------------------------------------------------------------------
  // Severity banding

  /** The band of a risk score, as the pre-save hook assigns it. */
  function SeverityOf(score: int): (severity: string)
    ensures severity in SeverityLevels
  {
    if score <= 4 then "low"
    else if score <= 10 then "medium"
    else if score <= 20 then "high"
    else "critical"
  }

  /** The position of a band in `SeverityLevels`, from least to most severe. */
  function Rank(severity: string): (r: nat)
    requires severity in SeverityLevels
    ensures r < |SeverityLevels| && SeverityLevels[r] == severity
  {
    if severity == "low" then 0
    else if severity == "medium" then 1
    else if severity == "high" then 2
    else 3
  }

  /** Each band is exactly one range of scores. */
  lemma SeverityBands(score: int)
    ensures SeverityOf(score) == "low" <==> score <= 4
    ensures SeverityOf(score) == "medium" <==> 5 <= score <= 10
    ensures SeverityOf(score) == "high" <==> 11 <= score <= 20
    ensures SeverityOf(score) == "critical" <==> score > 20
  {
  }

  /** A larger score never gives a milder band. */
  lemma SeverityMonotone(score: int, score': int)
    requires score <= score'
    ensures Rank(SeverityOf(score)) <= Rank(SeverityOf(score'))
  {
  }

  /** Swapping impact and probability does not change the band. */
  lemma SeveritySymmetric(impact: int, probability: int)
    ensures SeverityOf(impact * probability) == SeverityOf(probability * impact)
  {
  }

  /** Within the schema's ranges, a risk is critical only when both factors are 5,
      and its score lies between 1 and 25. */
  lemma CriticalOnlyAtFiveByFive(impact: int, probability: int)
    requires RatingMin <= impact <= RatingMax && RatingMin <= probability <= RatingMax
    ensures 1 <= impact * probability <= 25
    ensures SeverityOf(impact * probability) == "critical" <==> impact == 5 && probability == 5
  {
    if impact < 5 {
      assert impact * probability <= 4 * probability;
    }
    if probability < 5 {
      assert impact * probability <= impact * 4;
    }
    assert impact * probability >= 1 * probability;
    assert impact * probability <= 5 * probability;
  }

  /**
   * The hook's score. An absent impact or probability makes the product NaN in
   * JavaScript; that is `None` here.
   */
  function HookScore(impact: Option<int>, probability: Option<int>): Option<int>
  {
    if impact.Some? && probability.Some? then Some(impact.value * probability.value) else None
  }

  /** The hook's band: every comparison with NaN is false, so NaN falls through to 'critical'. */
  function HookSeverity(impact: Option<int>, probability: Option<int>): (severity: string)
    ensures severity in SeverityLevels
    ensures impact.None? || probability.None? ==> severity == "critical"
    ensures impact.Some? && probability.Some? ==> severity == SeverityOf(impact.value * probability.value)
  {
    match HookScore(impact, probability)
    case Some(score) => SeverityOf(score)
    case None => "critical"
  }

  // ---------------------------------------------------------------------------
  // Field validators

  /** The schema's paths that carry a validator (`mitigationPlan` has none). */
  datatype Path = Title | Description | Impact | Probability | Severity | Owner | TargetDate | Status

  /** Which validator of a path failed. */
  datatype Violation =
    | Required
    | MaxLength(maxLength: nat)
    | MinLength(minLength: nat)
    | Min(min: int)
    | Max(max: int)
    | NotInEnum
    | NotInFuture

  /** The message the schema itself declares for a failure, when it declares one;
      the other failures carry Mongoose's default message. */
  function SchemaMessage(path: Path, violation: Violation): Option<string>
  {
    match (path, violation)
    case (Title, Required) => Some("Title is required")
    case (Description, Required) => Some("Description is required")
    case (Description, MinLength(_)) => Some("Description too short")
    case (Impact, Min(_)) => Some("Impact must be at least 1")
    case (Impact, Max(_)) => Some("Impact cannot exceed 5")
    case (Probability, Min(_)) => Some("Probability must be at least 1")
    case (Probability, Max(_)) => Some("Probability cannot exceed 5")
    case (TargetDate, NotInFuture) => Some("Target date must be in the future")
    case _ => None
  }

  /** `title`: required (an empty string fails), `length` at most 100. Mongoose's
      length validators read JavaScript's `length`, in UTF-16 code units. */
  function CheckTitle(title: Option<string>): Option<Violation>
  {
    match title
    case None => Some(Required)
    case Some(t) =>
      if t == "" then Some(Required)
      else if Text.JsLength(t) > TitleMaxLength then Some(MaxLength(TitleMaxLength))
      else None
  }

  /** `description`: required, then `length` at most 500, then at least 10. */
  function CheckDescription(description: Option<string>): Option<Violation>
  {
    match description
    case None => Some(Required)
    case Some(d) =>
      if d == "" then Some(Required)
      else if Text.JsLength(d) > DescriptionMaxLength then Some(MaxLength(DescriptionMaxLength))
      else if Text.JsLength(d) < DescriptionMinLength then Some(MinLength(DescriptionMinLength))
      else None
  }

  /** `impact` and `probability`: required, at least 1, at most 5. */
  function CheckRating(value: Option<int>): Option<Violation>
  {
    match value
    case None => Some(Required)
    case Some(v) =>
      if v < RatingMin then Some(Min(RatingMin))
      else if v > RatingMax then Some(Max(RatingMax))
      else None
  }

  /** An enum path: the value must be one of the listed strings. */
  function CheckEnum(value: string, values: seq<string>): Option<Violation>
  {
    if value in values then None else Some(NotInEnum)
  }

  /** `owner`: required. */
  function CheckOwner(owner: Option<nat>): Option<Violation>
  {
    if owner.None? then Some(Required) else None
  }

  /** `targetDate`: an absent date passes; a present one must be strictly after `now`
      (both in milliseconds since the epoch). */
  function CheckTargetDate(targetDate: Option<int>, now: int): Option<Violation>
  {
    match targetDate
    case None => None
    case Some(t) => if t > now then None else Some(NotInFuture)
  }

  /** The values a Risk document holds. `owner` is the owning user's id. */
  datatype RiskFields = RiskFields(
    title: Option<string>,
    description: Option<string>,
    impact: Option<int>,
    probability: Option<int>,
    severity: string,
    owner: Option<nat>,
    mitigationPlan: Option<string>,
    targetDate: Option<int>,
    status: string)

  /** The first failing validator of one path, if any. */
  function PathViolation(fields: RiskFields, now: int, path: Path): Option<Violation>
  {
    match path
    case Title => CheckTitle(fields.title)
    case Description => CheckDescription(fields.description)
    case Impact => CheckRating(fields.impact)
    case Probability => CheckRating(fields.probability)
    case Severity => CheckEnum(fields.severity, SeverityLevels)
    case Owner => CheckOwner(fields.owner)
    case TargetDate => CheckTargetDate(fields.targetDate, now)
    case Status => CheckEnum(fields.status, StatusValues)
  }

  const AllPaths: set<Path> := {Title, Description, Impact, Probability, Severity, Owner, TargetDate, Status}

  /** The errors of a validation run, keyed by path: the document is accepted iff there are none. */
  function Errors(fields: RiskFields, now: int): (errors: map<Path, Violation>)
    ensures forall p :: p in errors <==> PathViolation(fields, now, p).Some?
    ensures forall p :: p in errors ==> errors[p] == PathViolation(fields, now, p).value
  {
    map p | p in AllPaths && PathViolation(fields, now, p).Some? :: PathViolation(fields, now, p).value
  }

  /** Whether a document passes validation. */
  predicate Accepted(fields: RiskFields, now: int)
  {
    Errors(fields, now) == map[]
  }

  /** Impact and probability are accepted iff they lie in 1..5. */
  lemma RatingAccepted(value: int)
    ensures CheckRating(Some(value)) == None <==> RatingMin <= value <= RatingMax
    ensures CheckRating(None) == Some(Required)
  {
  }

  /** A title is accepted iff, once trimmed, its `length` is 1 to 100. */
  lemma TitleAccepted(raw: string)
    ensures CheckTitle(Some(Text.Trim(raw))) == None <==> 1 <= Text.JsLength(Text.Trim(raw)) <= TitleMaxLength
  {
  }

  /** A description is accepted iff, once trimmed, its `length` is 10 to 500. */
  lemma DescriptionAccepted(raw: string)
    ensures CheckDescription(Some(Text.Trim(raw))) == None
      <==> DescriptionMinLength <= Text.JsLength(Text.Trim(raw)) <= DescriptionMaxLength
  {
  }

  /** Lengths are counted in UTF-16 code units: characters above U+FFFF count
      twice, so a title of 51 to 100 such characters is too long, and a
      description of 5 to 9 of them is long enough. */
  lemma AstralCharactersCountTwice(title: string, description: string)
    requires forall i :: 0 <= i < |title| ==> Text.IsAstral(title[i])
    requires forall i :: 0 <= i < |description| ==> Text.IsAstral(description[i])
    ensures 50 < |title| <= 100 ==> CheckTitle(Some(title)) == Some(MaxLength(TitleMaxLength))
    ensures 5 <= |description| < 10 ==> CheckDescription(Some(description)) == None
  {
  }

  /** Each failure the schema gives a message of its own, reported by `Errors` for
      the path it concerns. */
  lemma DeclaredMessages(fields: RiskFields, now: int)
    ensures fields.title.None? ==>
      Errors(fields, now)[Title] == Required
      && SchemaMessage(Title, Errors(fields, now)[Title]) == Some("Title is required")
    ensures fields.description.Some? && 0 < Text.JsLength(fields.description.value) < DescriptionMinLength ==>
      Errors(fields, now)[Description] == MinLength(DescriptionMinLength)
      && SchemaMessage(Description, Errors(fields, now)[Description]) == Some("Description too short")
    ensures fields.impact.Some? && fields.impact.value < RatingMin ==>
      SchemaMessage(Impact, Errors(fields, now)[Impact]) == Some("Impact must be at least 1")
    ensures fields.impact.Some? && fields.impact.value > RatingMax ==>
      SchemaMessage(Impact, Errors(fields, now)[Impact]) == Some("Impact cannot exceed 5")
    ensures fields.probability.Some? && fields.probability.value < RatingMin ==>
      SchemaMessage(Probability, Errors(fields, now)[Probability]) == Some("Probability must be at least 1")
    ensures fields.probability.Some? && fields.probability.value > RatingMax ==>
      SchemaMessage(Probability, Errors(fields, now)[Probability]) == Some("Probability cannot exceed 5")
    ensures fields.targetDate.Some? && fields.targetDate.value <= now ==>
      SchemaMessage(TargetDate, Errors(fields, now)[TargetDate]) == Some("Target date must be in the future")
  {
    var errors := Errors(fields, now);
    assert PathViolation(fields, now, Title).Some? ==> Title in errors;
    assert PathViolation(fields, now, Description).Some? ==> Description in errors;
    assert PathViolation(fields, now, Impact).Some? ==> Impact in errors;
    assert PathViolation(fields, now, Probability).Some? ==> Probability in errors;
    assert PathViolation(fields, now, TargetDate).Some? ==> TargetDate in errors;
  }

  /** A target date is accepted when absent, and when present iff it is after `now`. */
  lemma TargetDateAccepted(targetDate: Option<int>, now: int)
    ensures CheckTargetDate(targetDate, now) == None <==> targetDate.None? || targetDate.value > now
  {
  }

  /** The whole document is accepted iff every field meets its schema rule. */
  lemma AcceptedIff(fields: RiskFields, now: int)
    ensures Accepted(fields, now) <==>
      && fields.title.Some? && 1 <= Text.JsLength(fields.title.value) <= TitleMaxLength
      && fields.description.Some?
      && DescriptionMinLength <= Text.JsLength(fields.description.value) <= DescriptionMaxLength
      && fields.impact.Some? && RatingMin <= fields.impact.value <= RatingMax
      && fields.probability.Some? && RatingMin <= fields.probability.value <= RatingMax
      && fields.severity in SeverityLevels
      && fields.owner.Some?
      && (fields.targetDate.None? || fields.targetDate.value > now)
      && fields.status in StatusValues
  {
    var errors := Errors(fields, now);
    if errors == map[] {
      forall p | p in AllPaths ensures PathViolation(fields, now, p).None? {
        assert p !in errors;
      }
      assert PathViolation(fields, now, Title).None?;
      assert PathViolation(fields, now, Description).None?;
      assert PathViolation(fields, now, Impact).None?;
      assert PathViolation(fields, now, Probability).None?;
    } else {
      var p :| p in errors;
      assert PathViolation(fields, now, p).Some?;
    }
  }

  // ---------------------------------------------------------------------------
  // The document

  /** The fields a client supplies when a Risk is built; an absent field is `None`. */
  datatype RiskInput = RiskInput(
    title: Option<string>,
    description: Option<string>,
    impact: Option<int>,
    probability: Option<int>,
    severity: Option<string>,
    owner: Option<nat>,
    mitigationPlan: Option<string>,
    targetDate: Option<int>,
    status: Option<string>)

  /** A present string, trimmed as the `trim: true` setter does. */
  function TrimmedOption(s: Option<string>): Option<string>
  {
    match s
    case None => None
    case Some(v) => Some(Text.Trim(v))
  }

  /** The value of an optional field, or its schema default. */
  function OrDefault(value: Option<string>, default: string): string
  {
    match value
    case None => default
    case Some(v) => v
  }

  class RiskDocument {
    var title: Option<string>
    var description: Option<string>
    var impact: Option<int>
    var probability: Option<int>
    var severity: string
    var owner: Option<nat>
    var mitigationPlan: Option<string>
    var targetDate: Option<int>
    var status: string

    /** The document's current values. */
    function Fields(): RiskFields
      reads this
    {
      RiskFields(title, description, impact, probability, severity, owner, mitigationPlan, targetDate, status)
    }

    /** `new Risk({...})`: trims the string paths that declare `trim` and fills the
        defaults 'low' for severity and 'open' for status. */
    constructor (input: RiskInput)
      ensures title == TrimmedOption(input.title)
      ensures description == TrimmedOption(input.description)
      ensures mitigationPlan == TrimmedOption(input.mitigationPlan)
      ensures impact == input.impact && probability == input.probability
      ensures severity == OrDefault(input.severity, DefaultSeverity)
      ensures status == OrDefault(input.status, DefaultStatus)
      ensures owner == input.owner && targetDate == input.targetDate
    {
      title := TrimmedOption(input.title);
      description := TrimmedOption(input.description);
      impact := input.impact;
      probability := input.probability;
      severity := OrDefault(input.severity, DefaultSeverity);
      owner := input.owner;
      mitigationPlan := TrimmedOption(input.mitigationPlan);
      targetDate := input.targetDate;
      status := OrDefault(input.status, DefaultStatus);
    }

    /** The pre('save') hook: overwrite `severity` with the band of
        `impact * probability`, whatever it held before; nothing else changes. */
    method PreSave()
      modifies this`severity
      ensures severity == HookSeverity(impact, probability)
      ensures severity in SeverityLevels
      ensures Fields() == old(Fields()).(severity := HookSeverity(impact, probability))
    {
      var riskScore := HookScore(impact, probability);
      if riskScore.Some? && riskScore.value <= 4 {
        severity := "low";
      } else if riskScore.Some? && riskScore.value <= 10 {
        severity := "medium";
      } else if riskScore.Some? && riskScore.value <= 20 {
        severity := "high";
      } else {
        severity := "critical";
      }
    }

    /** `save()` up to persistence: validate, and only if nothing fails run the hook.
        Returns the validation errors. */
    method Save(now: int) returns (errors: map<Path, Violation>)
      modifies this`severity
      ensures errors == Errors(old(Fields()), now)
      ensures errors == map[] ==> impact.Some? && probability.Some?
      ensures errors == map[] ==>
        Fields() == old(Fields()).(severity := SeverityOf(impact.value * probability.value))
      ensures errors != map[] ==> Fields() == old(Fields())
    {
      errors := Errors(Fields(), now);
      if errors == map[] {
        AcceptedIff(Fields(), now);
        PreSave();
      }
    }
  }

  /** A saved document's severity is the band of a score between 1 and 25, and it is
      'critical' exactly when impact and probability are both 5. */
  lemma SavedSeverity(fields: RiskFields, now: int)
    requires Accepted(fields, now)
    ensures fields.impact.Some? && fields.probability.Some?
    ensures 1 <= fields.impact.value * fields.probability.value <= 25
    ensures HookSeverity(fields.impact, fields.probability) == "critical"
      <==> fields.impact.value == 5 && fields.probability.value == 5
  {
    AcceptedIff(fields, now);
    CriticalOnlyAtFiveByFive(fields.impact.value, fields.probability.value);
  }

  /** Validation sees the severity the client supplied, before the hook replaces it:
      a value outside `SeverityLevels` makes the save fail even though the hook
      would have overwritten it. */
  lemma ClientSeverityRejected(fields: RiskFields, now: int)
    requires fields.severity !in SeverityLevels
    ensures Severity in Errors(fields, now) && Errors(fields, now)[Severity] == NotInEnum
    ensures !Accepted(fields, now)
  {
    assert PathViolation(fields, now, Severity) == Some(NotInEnum);
  }

  /** A freshly built document with no status passes the status rule ('open'),
      and one with no severity passes the severity rule ('low'). */
  lemma DefaultsAccepted(input: RiskInput, now: int)
    requires input.status.None? && input.severity.None?
    ensures PathViolation(BuiltFields(input), now, Status).None?
    ensures PathViolation(BuiltFields(input), now, Severity).None?
  {
  }

  /** The values the constructor leaves in a new document. */
  function BuiltFields(input: RiskInput): RiskFields
  {
    RiskFields(TrimmedOption(input.title), TrimmedOption(input.description), input.impact,
               input.probability, OrDefault(input.severity, DefaultSeverity), input.owner,
               TrimmedOption(input.mitigationPlan), input.targetDate, OrDefault(input.status, DefaultStatus))
  }
}
