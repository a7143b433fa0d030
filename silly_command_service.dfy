/**
 * `SillyCommandPDO` (src/api/v1/services/silly_command.rs): the command
 * queries, and the operations that add texts, images and commands.
 *
 * The database and the file system are a backend object: the by-name
 * query is an oracle `lookup`, every write (file creation, file content,
 * row insertion) is answered by the oracle `answer` with the new row's id
 * or an error, and `writes` logs every write attempted, in order.
 */
module SillyCommandService {
  import opened Prelude
  import opened SillyCommandModel

  const CommandNotFound := "Couldn't find command!"
  const DefaultPreference := "ALL"

  /** `filter_map(RawSillyCommandData::into_silly_command_data)`. */
  function FilterCommands(rows: seq<RawSillyCommandData>): (r: seq<SillyCommandData>)
    ensures |r| <= |rows|
  {
    if rows == [] then []
    else
      (match IntoSillyCommandData(rows[0])
       case Some(d) => [d]
       case None => []) + FilterCommands(rows[1..])
  }

  /** `fetch_silly_commands`: `query` is what the command query returned. */
  function FetchSillyCommands(query: Result<seq<RawSillyCommandData>, string>): (r: seq<SillyCommandData>)
    ensures query.Failure? ==> r == []
    ensures query.Success? ==> r == FilterCommands(query.value)
  {
    match query
    case Failure(_) => []
    case Success(rows) => FilterCommands(rows)
  }

  /** Filtering distributes over concatenation: rows keep their order. */
  lemma {:induction false} FilterCommandsAppend(a: seq<RawSillyCommandData>, b: seq<RawSillyCommandData>)
    ensures FilterCommands(a + b) == FilterCommands(a) + FilterCommands(b)
  {
    if a == [] {
      assert a + b == b;
    } else {
      assert (a + b)[1..] == a[1..] + b;
      FilterCommandsAppend(a[1..], b);
    }
  }

  /** One row is kept, converted, exactly when it is well formed. */
  lemma FilterCommandsSingle(row: RawSillyCommandData)
    ensures WellFormed(row) ==> FilterCommands([row]) == [IntoSillyCommandData(row).value]
    ensures !WellFormed(row) ==> FilterCommands([row]) == []
  {
    IntoSillyCommandDataSpec(row);
    assert [row][1..] == [];
  }

  /**
   * Every command returned comes from some row, and every well-formed row
   * yields a returned command.
   */
  lemma {:induction false} FilterCommandsMembers(rows: seq<RawSillyCommandData>)
    ensures forall d :: d in FilterCommands(rows) ==> exists i :: 0 <= i < |rows| && IntoSillyCommandData(rows[i]) == Some(d)
    ensures forall i :: 0 <= i < |rows| && WellFormed(rows[i]) ==> IntoSillyCommandData(rows[i]).value in FilterCommands(rows)
  {
    if rows != [] {
      FilterCommandsMembers(rows[1..]);
      IntoSillyCommandDataSpec(rows[0]);
      forall i | 1 <= i < |rows| && WellFormed(rows[i])
        ensures IntoSillyCommandData(rows[i]).value in FilterCommands(rows)
      {
        assert rows[1..][i - 1] == rows[i];
      }
      forall d | d in FilterCommands(rows)
        ensures exists i :: 0 <= i < |rows| && IntoSillyCommandData(rows[i]) == Some(d)
      {
        if d !in FilterCommands(rows[1..]) {
          assert IntoSillyCommandData(rows[0]) == Some(d);
        } else {
          var j :| 0 <= j < |rows[1..]| && IntoSillyCommandData(rows[1..][j]) == Some(d);
          assert rows[j + 1] == rows[1..][j];
        }
      }
    }
  }

  /** When every row is well formed nothing is dropped and the order is the rows' order. */
  lemma {:induction false} FilterCommandsKeepsWellFormed(rows: seq<RawSillyCommandData>)
    requires forall i :: 0 <= i < |rows| ==> WellFormed(rows[i])
    ensures |FilterCommands(rows)| == |rows|
    ensures forall i :: 0 <= i < |rows| ==> IntoSillyCommandData(rows[i]).Some? && FilterCommands(rows)[i] == IntoSillyCommandData(rows[i]).value
  {
    if rows != [] {
      IntoSillyCommandDataSpec(rows[0]);
      FilterCommandsKeepsWellFormed(rows[1..]);
      forall i | 1 <= i < |rows|
        ensures IntoSillyCommandData(rows[i]).Some? && FilterCommands(rows)[i] == IntoSillyCommandData(rows[i]).value
      {
        assert rows[1..][i - 1] == rows[i];
      }
    }
  }

  /** `fetch_silly_command_by_name`: `lookup` is what the by-name query returned. */
  function FetchSillyCommandByName(lookup: Result<Option<RawSillyCommandData>, string>): (r: Option<SillyCommandData>)
    ensures r.Some? <==> lookup.Success? && lookup.value.Some? && WellFormed(lookup.value.value)
    ensures r.Some? ==> r.value == IntoSillyCommandData(lookup.value.value).value
  {
    match lookup.ToOption()
    case Some(Some(raw)) => IntoSillyCommandDataSpec(raw); IntoSillyCommandData(raw)
    case _ => None
  }

  /** The writes the service performs on the file system and the database. */
  datatype Write =
    | CreateFile(path: string)
    | WriteFile(path: string, bytes: seq<byte>)
    | InsertCommand(name: string, description: string, footerText: string, commandType: i32)
    | InsertText(command: i32, content: string)
    | InsertAuthorText(command: i32, content: string)
    | InsertImage(command: i32, path: string, preference: string)
    | InsertAuthorImage(command: i32, path: string)

  /** The outcome of an operation: its result and the writes it attempted, in order. */
  datatype Outcome = Outcome(result: Result<i32, string>, writes: seq<Write>)

  /** Where an uploaded image is stored: `./assets/{file_name}.{extension}`. */
  function ImagePath(fileName: string, extension: string): string {
    "./assets/" + fileName + "." + extension
  }

  class SillyCommandBackend {
    /** What the by-name query returns for each name. */
    const lookup: string -> Result<Option<RawSillyCommandData>, string>
    /** What the file system or the database answers to each write. */
    const answer: Write -> Result<i32, string>
    /** Every write attempted so far. */
    var writes: seq<Write>

    constructor(lookup: string -> Result<Option<RawSillyCommandData>, string>, answer: Write -> Result<i32, string>)
      ensures this.lookup == lookup && this.answer == answer && writes == []
    {
      this.lookup := lookup;
      this.answer := answer;
      writes := [];
    }

    function CommandByName(name: string): Option<SillyCommandData> {
      FetchSillyCommandByName(lookup(name))
    }

    /** One write, as `add_text`/`add_text_author`/`create_command` perform it. */
    function Single(w: Write): Outcome {
      Outcome(answer(w), [w])
    }

    /** `add_text`. */
    function AddTextOutcome(commandName: string, content: string): Outcome {
      match CommandByName(commandName)
      case None => Outcome(Failure(CommandNotFound), [])
      case Some(command) => Single(InsertText(command.id, content))
    }

    /** `add_text_author`. */
    function AddTextAuthorOutcome(commandName: string, content: string): Outcome {
      match CommandByName(commandName)
      case None => Outcome(Failure(CommandNotFound), [])
      case Some(command) => Single(InsertAuthorText(command.id, content))
    }

    /** The file is created, then written, then its row inserted; the first failure stops the rest. */
    function StoreImage(path: string, image: seq<byte>, insert: Write): Outcome {
      var create := CreateFile(path);
      var write := WriteFile(path, image);
      if answer(create).Failure? then Outcome(Failure(answer(create).error), [create])
      else if answer(write).Failure? then Outcome(Failure(answer(write).error), [create, write])
      else Outcome(answer(insert), [create, write, insert])
    }

    /** `add_image_author`; `fileName` is the freshly generated UUID. */
    function AddImageAuthorOutcome(commandName: string, image: seq<byte>, extension: string, fileName: string): Outcome {
      match CommandByName(commandName)
      case None => Outcome(Failure(CommandNotFound), [])
      case Some(command) =>
        var path := ImagePath(fileName, extension);
        StoreImage(path, image, InsertAuthorImage(command.id, path))
    }

    /** `add_image`; `fileName` is the freshly generated UUID. */
    function AddImageOutcome(commandName: string, image: seq<byte>, extension: string, preference: Option<string>, fileName: string): Outcome {
      match CommandByName(commandName)
      case None => Outcome(Failure(CommandNotFound), [])
      case Some(command) =>
        if command.commandType == AuthorOnly then AddImageAuthorOutcome(commandName, image, extension, fileName)
        else
          var path := ImagePath(fileName, extension);
          StoreImage(path, image, InsertImage(command.id, path, preference.GetOr(DefaultPreference)))
    }

    /** `create_command`: the type is stored as its discriminant. */
    function CreateCommandOutcome(name: string, description: string, footerText: string, commandType: SillyCommandType): Outcome {
      Single(InsertCommand(name, description, footerText, Discriminant(commandType)))
    }

    /** An unknown command fails every add with "Couldn't find command!" before anything is written. */
    lemma UnknownCommandWritesNothing(commandName: string, content: string, image: seq<byte>, extension: string,
                                      preference: Option<string>, fileName: string)
      requires CommandByName(commandName).None?
      ensures AddTextOutcome(commandName, content) == Outcome(Failure(CommandNotFound), [])
      ensures AddTextAuthorOutcome(commandName, content) == Outcome(Failure(CommandNotFound), [])
      ensures AddImageOutcome(commandName, image, extension, preference, fileName) == Outcome(Failure(CommandNotFound), [])
      ensures AddImageAuthorOutcome(commandName, image, extension, fileName) == Outcome(Failure(CommandNotFound), [])
    {
    }

    /** On an author-only command `add_image` is `add_image_author`: the preference plays no part. */
    lemma AuthorOnlyImageIgnoresPreference(commandName: string, image: seq<byte>, extension: string,
                                           p: Option<string>, q: Option<string>, fileName: string)
      requires CommandByName(commandName).Some? && CommandByName(commandName).value.commandType == AuthorOnly
      ensures AddImageOutcome(commandName, image, extension, p, fileName) == AddImageAuthorOutcome(commandName, image, extension, fileName)
      ensures AddImageOutcome(commandName, image, extension, p, fileName) == AddImageOutcome(commandName, image, extension, q, fileName)
    {
    }

    /**
     * On a single-user command the image row names the stored path and the
     * given preference, "ALL" when none is given, and it is inserted only after
     * the file was created and written.
     */
    lemma SingleUserImageRow(commandName: string, image: seq<byte>, extension: string, preference: Option<string>, fileName: string)
      requires CommandByName(commandName).Some? && CommandByName(commandName).value.commandType == SingleUser
      ensures var o := AddImageOutcome(commandName, image, extension, preference, fileName);
        var path := "./assets/" + fileName + "." + extension;
        var row := InsertImage(CommandByName(commandName).value.id, path, if preference.Some? then preference.value else "ALL");
        && 1 <= |o.writes| <= 3 && o.writes[0] == CreateFile(path)
        && (row in o.writes <==> answer(CreateFile(path)).Success? && answer(WriteFile(path, image)).Success?)
        && (row in o.writes ==> o.writes == [CreateFile(path), WriteFile(path, image), row] && o.result == answer(row))
    {
    }

    /** `create_command` binds the type as 1 (author only) or 2 (single user). */
    lemma CreateCommandBindsDiscriminant(name: string, description: string, footerText: string, commandType: SillyCommandType)
      ensures var o := CreateCommandOutcome(name, description, footerText, commandType);
        && |o.writes| == 1 && o.writes[0].InsertCommand?
        && TryFromI32(o.writes[0].commandType) == Success(commandType)
    {
      DiscriminantRoundTrip(commandType, 0);
    }

    method Perform(w: Write) returns (r: Result<i32, string>)
      modifies this`writes
      ensures writes == old(writes) + [w] && r == answer(w)
    {
      writes := writes + [w];
      r := answer(w);
    }

    method AddText(commandName: string, content: string) returns (r: Result<i32, string>)
      modifies this`writes
      ensures r == AddTextOutcome(commandName, content).result
      ensures writes == old(writes) + AddTextOutcome(commandName, content).writes
    {
      var command := CommandByName(commandName);
      if command.None? {
        return Failure(CommandNotFound);
      }
      r := Perform(InsertText(command.value.id, content));
    }

    method AddTextAuthor(commandName: string, content: string) returns (r: Result<i32, string>)
      modifies this`writes
      ensures r == AddTextAuthorOutcome(commandName, content).result
      ensures writes == old(writes) + AddTextAuthorOutcome(commandName, content).writes
    {
      var command := CommandByName(commandName);
      if command.None? {
        return Failure(CommandNotFound);
      }
      r := Perform(InsertAuthorText(command.value.id, content));
    }

    method StoreImageFile(path: string, image: seq<byte>, insert: Write) returns (r: Result<i32, string>)
      modifies this`writes
      ensures r == StoreImage(path, image, insert).result
      ensures writes == old(writes) + StoreImage(path, image, insert).writes
    {
      var created := Perform(CreateFile(path));
      if created.Failure? {
        return Failure(created.error);
      }
      var written := Perform(WriteFile(path, image));
      if written.Failure? {
        return Failure(written.error);
      }
      r := Perform(insert);
    }

    method AddImageAuthor(commandName: string, image: seq<byte>, extension: string, fileName: string) returns (r: Result<i32, string>)
      modifies this`writes
      ensures r == AddImageAuthorOutcome(commandName, image, extension, fileName).result
      ensures writes == old(writes) + AddImageAuthorOutcome(commandName, image, extension, fileName).writes
    {
      var command := CommandByName(commandName);
      if command.None? {
        return Failure(CommandNotFound);
      }
      var path := ImagePath(fileName, extension);
      r := StoreImageFile(path, image, InsertAuthorImage(command.value.id, path));
    }

    method AddImage(commandName: string, image: seq<byte>, extension: string, preference: Option<string>, fileName: string)
      returns (r: Result<i32, string>)
      modifies this`writes
      ensures r == AddImageOutcome(commandName, image, extension, preference, fileName).result
      ensures writes == old(writes) + AddImageOutcome(commandName, image, extension, preference, fileName).writes
    {
      var command := CommandByName(commandName);
      if command.None? {
        return Failure(CommandNotFound);
      }
      if command.value.commandType == AuthorOnly {
        r := AddImageAuthor(commandName, image, extension, fileName);
        return;
      }
      var path := ImagePath(fileName, extension);
      r := StoreImageFile(path, image, InsertImage(command.value.id, path, preference.GetOr(DefaultPreference)));
    }

    method CreateCommand(name: string, description: string, footerText: string, commandType: SillyCommandType)
      returns (r: Result<i32, string>)
      modifies this`writes
      ensures r == CreateCommandOutcome(name, description, footerText, commandType).result
      ensures writes == old(writes) + CreateCommandOutcome(name, description, footerText, commandType).writes
    {
      r := Perform(InsertCommand(name, description, footerText, Discriminant(commandType)));
    }
  }
}
