/**
 * The silly-command handlers (src/api/v1/controllers/silly_command_controller.rs):
 * the multipart field accumulator of `add_image` and `add_image_author`,
 * and the 404 rule of `fetch_silly_command_by_name`.
 *
 * A multipart body is the sequence of what `next_field` yields until it
 * yields nothing: an error, or a part with its optional name and what
 * reading it as bytes or as text gives.
 */
module SillyCommandController {
  import opened Prelude
  import opened SillyCommandModel
  import opened SillyCommandService

  datatype Part = Part(name: Option<string>, bytes: Result<seq<byte>, string>, text: Result<string, string>)

  datatype NextField = FieldError(message: string) | NextPart(part: Part)

  /** `AddImageRequest`, and `AddImageAuthorRequest` with `preference` always `None`. */
  datatype ImageForm = ImageForm(commandName: Option<string>, image: Option<seq<byte>>, extension: Option<string>, preference: Option<string>)

  const EmptyForm := ImageForm(None, None, None, None)

  const InvalidFieldName := "Invalid field name"
  const InvalidCommandName := "Invalid command name"
  const InvalidRequest := "Invalid request"
  const CommandNotFoundMessage := "Couldn't find command"

  /**
   * One part: `image`, `command_name`, `extension` and, when
   * `withPreference`, `preference` are recorded; a command name must name a
   * known command; any other name, or none, is rejected.
   */
  function Step(form: ImageForm, part: Part, backend: SillyCommandBackend, withPreference: bool): Result<ImageForm, Fail> {
    match part.name
    case None => Failure(Fail(BadRequest, InvalidFieldName))
    case Some(field) =>
      if field == "image" then
        match part.bytes
        case Failure(e) => Failure(InternalError(e))
        case Success(b) => Success(form.(image := Some(b)))
      else if field == "command_name" then
        match part.text
        case Failure(e) => Failure(InternalError(e))
        case Success(t) =>
          if backend.CommandByName(t).None? then Failure(Fail(BadRequest, InvalidCommandName))
          else Success(form.(commandName := Some(t)))
      else if field == "extension" then
        match part.text
        case Failure(e) => Failure(InternalError(e))
        case Success(t) => Success(form.(extension := Some(t)))
      else if withPreference && field == "preference" then
        match part.text
        case Failure(e) => Failure(InternalError(e))
        case Success(t) => Success(form.(preference := Some(t)))
      else Failure(Fail(BadRequest, InvalidFieldName))
  }

  /** The `while let` loop over the remaining body, from `form` on. */
  function Collect(form: ImageForm, body: seq<NextField>, backend: SillyCommandBackend, withPreference: bool): Result<ImageForm, Fail>
    decreases |body|
  {
    if body == [] then Success(form)
    else match body[0]
      case FieldError(e) => Failure(InternalError(e))
      case NextPart(part) =>
        match Step(form, part, backend, withPreference)
        case Failure(f) => Failure(f)
        case Success(next) => Collect(next, body[1..], backend, withPreference)
  }

  /** The destructuring after the loop: command name, image and extension are required, the preference is not. */
  predicate Complete(form: ImageForm) {
    form.commandName.Some? && form.image.Some? && form.extension.Some?
  }

  /** The accumulator loop of `add_image` (`withPreference`) and `add_image_author`. */
  method CollectForm(body: seq<NextField>, backend: SillyCommandBackend, withPreference: bool) returns (r: Result<ImageForm, Fail>)
    ensures r == Collect(EmptyForm, body, backend, withPreference)
  {
    var req := EmptyForm;
    var i := 0;
    while i < |body|
      invariant 0 <= i <= |body|
      invariant Collect(EmptyForm, body, backend, withPreference) == Collect(req, body[i..], backend, withPreference)
    {
      assert body[i..][1..] == body[i + 1..];
      match body[i]
      case FieldError(e) =>
        return Failure(InternalError(e));
      case NextPart(part) =>
        match part.name
        case None =>
          return Failure(Fail(BadRequest, InvalidFieldName));
        case Some(field) =>
          if field == "image" {
            if part.bytes.Failure? {
              return Failure(InternalError(part.bytes.error));
            }
            req := req.(image := Some(part.bytes.value));
          } else if field == "command_name" {
            if part.text.Failure? {
              return Failure(InternalError(part.text.error));
            }
            var commandName := part.text.value;
            if backend.CommandByName(commandName).None? {
              return Failure(Fail(BadRequest, InvalidCommandName));
            }
            req := req.(commandName := Some(commandName));
          } else if field == "extension" {
            if part.text.Failure? {
              return Failure(InternalError(part.text.error));
            }
            req := req.(extension := Some(part.text.value));
          } else if withPreference && field == "preference" {
            if part.text.Failure? {
              return Failure(InternalError(part.text.error));
            }
            req := req.(preference := Some(part.text.value));
          } else {
            return Failure(Fail(BadRequest, InvalidFieldName));
          }
      i := i + 1;
    }
    return Success(req);
  }

  /** The whole of `add_image` as a function of the body: the answer (the new image's id) and the writes. */
  function AddImageAnswer(body: seq<NextField>, backend: SillyCommandBackend, fileName: string): (Result<i32, Fail>, seq<Write>) {
    match Collect(EmptyForm, body, backend, true)
    case Failure(f) => (Failure(f), [])
    case Success(form) =>
      if !Complete(form) then (Failure(Fail(BadRequest, InvalidRequest)), [])
      else
        var o := backend.AddImageOutcome(form.commandName.value, form.image.value, form.extension.value, form.preference, fileName);
        match o.result
        case Failure(e) => (Failure(InternalError(e)), o.writes)
        case Success(id) => (Success(id), o.writes)
  }

  /** The same for `add_image_author`. */
  function AddImageAuthorAnswer(body: seq<NextField>, backend: SillyCommandBackend, fileName: string): (Result<i32, Fail>, seq<Write>) {
    match Collect(EmptyForm, body, backend, false)
    case Failure(f) => (Failure(f), [])
    case Success(form) =>
      if !Complete(form) then (Failure(Fail(BadRequest, InvalidRequest)), [])
      else
        var o := backend.AddImageAuthorOutcome(form.commandName.value, form.image.value, form.extension.value, fileName);
        match o.result
        case Failure(e) => (Failure(InternalError(e)), o.writes)
        case Success(id) => (Success(id), o.writes)
  }

  /** `add_image`: a success answers `{"status": "success", "data": {"image_id": id}}`. */
  method AddImage(backend: SillyCommandBackend, body: seq<NextField>, fileName: string) returns (r: Result<i32, Fail>)
    modifies backend`writes
    ensures r == AddImageAnswer(body, backend, fileName).0
    ensures backend.writes == old(backend.writes) + AddImageAnswer(body, backend, fileName).1
  {
    var form := CollectForm(body, backend, true);
    if form.Failure? {
      return Failure(form.error);
    }
    if !Complete(form.value) {
      return Failure(Fail(BadRequest, InvalidRequest));
    }
    var req := form.value;
    var id := backend.AddImage(req.commandName.value, req.image.value, req.extension.value, req.preference, fileName);
    if id.Failure? {
      return Failure(InternalError(id.error));
    }
    return Success(id.value);
  }

  /** `add_image_author`. */
  method AddImageAuthor(backend: SillyCommandBackend, body: seq<NextField>, fileName: string) returns (r: Result<i32, Fail>)
    modifies backend`writes
    ensures r == AddImageAuthorAnswer(body, backend, fileName).0
    ensures backend.writes == old(backend.writes) + AddImageAuthorAnswer(body, backend, fileName).1
  {
    var form := CollectForm(body, backend, false);
    if form.Failure? {
      return Failure(form.error);
    }
    if !Complete(form.value) {
      return Failure(Fail(BadRequest, InvalidRequest));
    }
    var req := form.value;
    var id := backend.AddImageAuthor(req.commandName.value, req.image.value, req.extension.value, fileName);
    if id.Failure? {
      return Failure(InternalError(id.error));
    }
    return Success(id.value);
  }

  /** `fetch_silly_command_by_name`: an unknown (or unreadable) command is 404 "Couldn't find command". */
  function FetchSillyCommandByNameAnswer(backend: SillyCommandBackend, name: string): (r: Result<SillyCommandData, Fail>)
    ensures backend.CommandByName(name).None? <==> r == Failure(Fail(NotFound, CommandNotFoundMessage))
    ensures backend.CommandByName(name).Some? ==> r == Success(backend.CommandByName(name).value)
  {
    match backend.CommandByName(name)
    case None => Failure(Fail(NotFound, CommandNotFoundMessage))
    case Some(command) => Success(command)
  }

  /** A part without a name, or whose name is none of the accepted fields, stops the loop with 400 "Invalid field name". */
  lemma UnknownFieldRejected(form: ImageForm, part: Part, rest: seq<NextField>, backend: SillyCommandBackend, withPreference: bool)
    requires part.name.None? || part.name.value !in {"image", "command_name", "extension", "preference"}
    ensures Collect(form, [NextPart(part)] + rest, backend, withPreference) == Failure(Fail(BadRequest, InvalidFieldName))
  {
    assert ([NextPart(part)] + rest)[1..] == rest;
  }

  /** `add_image_author` has no `preference` field: such a part is rejected like an unknown one. */
  lemma AuthorFormRejectsPreference(form: ImageForm, part: Part, rest: seq<NextField>, backend: SillyCommandBackend)
    requires part.name == Some("preference")
    ensures Collect(form, [NextPart(part)] + rest, backend, false) == Failure(Fail(BadRequest, InvalidFieldName))
    ensures part.text.Success? ==>
      Collect(form, [NextPart(part)] + rest, backend, true) == Collect(form.(preference := Some(part.text.value)), rest, backend, true)
  {
    assert ([NextPart(part)] + rest)[1..] == rest;
  }

  /** A command name the lookup does not find stops the loop at once with 400 "Invalid command name". */
  lemma UnknownCommandRejected(form: ImageForm, part: Part, rest: seq<NextField>, backend: SillyCommandBackend, withPreference: bool)
    requires part.name == Some("command_name") && part.text.Success? && backend.CommandByName(part.text.value).None?
    ensures Collect(form, [NextPart(part)] + rest, backend, withPreference) == Failure(Fail(BadRequest, InvalidCommandName))
  {
    assert ([NextPart(part)] + rest)[1..] == rest;
  }

  /** A field sent twice keeps its last value: the first occurrence leaves no trace. */
  lemma RepeatedFieldLastWins(form: ImageForm, first: Part, second: Part, rest: seq<NextField>, backend: SillyCommandBackend, withPreference: bool)
    requires first.name.Some? && first.name == second.name
    requires Step(form, first, backend, withPreference).Success?
    ensures Collect(form, [NextPart(first), NextPart(second)] + rest, backend, withPreference)
         == Collect(form, [NextPart(second)] + rest, backend, withPreference)
  {
    var body := [NextPart(first), NextPart(second)] + rest;
    assert body[1..] == [NextPart(second)] + rest;
    assert ([NextPart(second)] + rest)[1..] == rest;
  }

  /**
   * The loop only ever records a command name the lookup knows, and the
   * fields it fills stay filled.
   */
  lemma {:induction false} CollectedNameIsKnown(form: ImageForm, body: seq<NextField>, backend: SillyCommandBackend, withPreference: bool)
    requires form.commandName.Some? ==> backend.CommandByName(form.commandName.value).Some?
    ensures var r := Collect(form, body, backend, withPreference);
      r.Success? ==>
        && (r.value.commandName.Some? ==> backend.CommandByName(r.value.commandName.value).Some?)
        && (form.commandName.Some? ==> r.value.commandName.Some?)
        && (form.image.Some? ==> r.value.image.Some?)
        && (form.extension.Some? ==> r.value.extension.Some?)
        && (!withPreference ==> r.value.preference == form.preference)
    decreases |body|
  {
    if body != [] && body[0].NextPart? {
      var step := Step(form, body[0].part, backend, withPreference);
      if step.Success? {
        CollectedNameIsKnown(step.value, body[1..], backend, withPreference);
      }
    }
  }

  /**
   * A body that ends before command name, image and extension were all sent
   * is 400 "Invalid request", and nothing is written.
   */
  lemma IncompleteFormWritesNothing(body: seq<NextField>, backend: SillyCommandBackend, fileName: string)
    requires Collect(EmptyForm, body, backend, true).Success? && !Complete(Collect(EmptyForm, body, backend, true).value)
    ensures AddImageAnswer(body, backend, fileName) == (Failure(Fail(BadRequest, InvalidRequest)), [])
  {
  }

  /** A preference part is optional: a form with a known command name, an image and an extension goes to the service. */
  lemma CompleteFormReachesService(body: seq<NextField>, backend: SillyCommandBackend, fileName: string)
    requires Collect(EmptyForm, body, backend, true).Success? && Complete(Collect(EmptyForm, body, backend, true).value)
    ensures var form := Collect(EmptyForm, body, backend, true).value;
      var o := backend.AddImageOutcome(form.commandName.value, form.image.value, form.extension.value, form.preference, fileName);
      && AddImageAnswer(body, backend, fileName).1 == o.writes
      && (o.result.Failure? ==> AddImageAnswer(body, backend, fileName).0 == Failure(Fail(InternalServerError, "Internal server error: " + o.result.error)))
      && (o.result.Success? ==> AddImageAnswer(body, backend, fileName).0 == Success(o.result.value))
  {
  }
}
