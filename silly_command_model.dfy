/**
 * Silly-command rows as the database returns them, the checked domain record,
 * and the command type with its `repr(i32)` discriminants
 * (src/api/v1/models/silly_command.rs).
 */
module SillyCommandModel {
  import opened Prelude

  datatype SillyCommandType = AuthorOnly | SingleUser

  /** `command_type as i32`: the declared discriminants. */
  function Discriminant(t: SillyCommandType): (v: i32)
    ensures v == 1 || v == 2
  {
    match t
    case AuthorOnly => 1
    case SingleUser => 2
  }

  /** `TryFrom<i32> for SillyCommandType`. */
  function TryFromI32(value: i32): (r: Result<SillyCommandType, ()>)
    ensures r.Success? <==> value == 1 || value == 2
    ensures value == 1 ==> r == Success(AuthorOnly)
    ensures value == 2 ==> r == Success(SingleUser)
  {
    match value
    case 1 => Success(AuthorOnly)
    case 2 => Success(SingleUser)
    case _ => Failure(())
  }

  /** Every variant survives the trip through its discriminant, and only its own discriminant decodes to it. */
  lemma DiscriminantRoundTrip(t: SillyCommandType, v: i32)
    ensures TryFromI32(Discriminant(t)) == Success(t)
    ensures TryFromI32(v) == Success(t) <==> v == Discriminant(t)
  {
  }

  /** A row of the command queries: every column may be NULL. */
  datatype RawSillyCommandData = RawSillyCommandData(
    id: Option<i32>,
    name: Option<string>,
    description: Option<string>,
    footerText: Option<string>,
    commandType: Option<i32>,
    selfTexts: Option<seq<string>>,
    selfImages: Option<seq<string>>,
    images: Option<seq<string>>,
    preferences: Option<seq<string>>,
    texts: Option<seq<string>>,
    genderAttributes: Option<seq<string>>)

  datatype SillyCommandData = SillyCommandData(
    id: i32,
    name: string,
    description: string,
    footerText: string,
    commandType: SillyCommandType,
    selfTexts: seq<string>,
    selfImages: seq<string>,
    preferences: seq<string>,
    images: seq<string>,
    texts: seq<string>,
    genderAttributes: seq<string>)

  /** `unwrap_or_default` on a list column. */
  function ListOrEmpty(column: Option<seq<string>>): seq<string> {
    column.GetOr([])
  }

  /** `RawSillyCommandData::into_silly_command_data`. */
  function IntoSillyCommandData(raw: RawSillyCommandData): Option<SillyCommandData> {
    match (raw.id, raw.name, raw.commandType, raw.description)
    case (Some(id), Some(name), Some(code), Some(description)) =>
      (match TryFromI32(code)
       case Failure(_) => None
       case Success(commandType) =>
         match raw.footerText
         case None => None
         case Some(footerText) =>
           Some(SillyCommandData(
             id, name, description, footerText, commandType,
             ListOrEmpty(raw.selfTexts), ListOrEmpty(raw.selfImages),
             ListOrEmpty(raw.preferences), ListOrEmpty(raw.images),
             ListOrEmpty(raw.texts), ListOrEmpty(raw.genderAttributes)))
      )
    case _ => None
  }

  /** The conditions under which a row is a well-formed command. */
  predicate WellFormed(raw: RawSillyCommandData) {
    && raw.id.Some? && raw.name.Some? && raw.commandType.Some? && raw.description.Some?
    && (raw.commandType.value == 1 || raw.commandType.value == 2)
    && raw.footerText.Some?
  }

  /**
   * The conversion fails exactly on a missing id, name, type or description,
   * a type code other than 1 or 2, or a missing footer text; otherwise the
   * scalar columns are copied and an absent list column becomes empty.
   */
  lemma IntoSillyCommandDataSpec(raw: RawSillyCommandData)
    ensures IntoSillyCommandData(raw).Some? <==> WellFormed(raw)
    ensures WellFormed(raw) ==>
      var d := IntoSillyCommandData(raw).value;
      && d.id == raw.id.value && d.name == raw.name.value
      && d.description == raw.description.value && d.footerText == raw.footerText.value
      && Discriminant(d.commandType) == raw.commandType.value
      && d.selfTexts == ListOrEmpty(raw.selfTexts) && d.selfImages == ListOrEmpty(raw.selfImages)
      && d.preferences == ListOrEmpty(raw.preferences) && d.images == ListOrEmpty(raw.images)
      && d.texts == ListOrEmpty(raw.texts) && d.genderAttributes == ListOrEmpty(raw.genderAttributes)
  {
    if WellFormed(raw) {
      DiscriminantRoundTrip(if raw.commandType.value == 1 then AuthorOnly else SingleUser, raw.commandType.value);
    }
  }
}
