/** `lambda_handler(event, context)` in src/lambda_function.py: for every entry of
    `event['files']` that has a `name`, build a key, take the id back out of it,
    enrich the entry's `body`, write it to the bucket and remember the name; count
    the entries without a name; answer `{'files': json.dumps(names)}`. */
module Handler {
  import opened Wrappers
  import opened Json
  import opened JsonText
  import opened Utf8
  import opened PosixPath
  import opened FilePath
  import opened Payload

  const FILES_KEY := "files"
  const NAME_KEY := "name"
  const BODY_KEY := "body"

  /** What the world outside the handler supplies for one named entry: what
      `date.today()` and `uuid.uuid1()` return inside `construct_file_path`, and
      whether the `put_object` call that follows succeeds. */
  datatype Env = Env(today: Date, id: string, putOk: bool)

  predicate ValidEnvs(envs: seq<Env>) {
    forall k :: 0 <= k < |envs| ==> ValidDate(envs[k].today) && IsUuidText(envs[k].id)
  }

  /** One `put_object` call that succeeded. */
  datatype Put = Put(key: string, body: seq<byte>)

  /** The exceptions that end an invocation. */
  datatype Error =
    | KeyError(key: string)
    | TypeError(reason: string)
    | PutFailed(key: string)

  // ---- The Python operations the handler applies to the event ----

  /** `v[key]` with a string key. */
  function Subscript(v: Value, key: string): (r: Result<Value, Error>)
    ensures v.Obj? && Contains(v.fields, key) ==> r == Ok(Get(v.fields, key).value)
    ensures v.Obj? && !Contains(v.fields, key) ==> r == Err(KeyError(key))
    ensures !v.Obj? ==> r.Err? && r.error.TypeError?
  {
    match v
    case Obj(fields) =>
      (match Get(fields, key)
       case Some(x) => Ok(x)
       case None => Err(KeyError(key)))
    case Arr(_) => Err(TypeError("list indices must be integers or slices, not str"))
    case Str(_) => Err(TypeError("string indices must be integers"))
    case _ => Err(TypeError("object is not subscriptable"))
  }

  /** `for x in v`: a list yields its items, a dict its keys, a string its characters. */
  function Iterate(v: Value): (r: Result<seq<Value>, Error>)
    ensures v.Arr? ==> r == Ok(v.items)
  {
    match v
    case Arr(items) => Ok(items)
    case Obj(fields) => Ok(Strs(Keys(fields)))
    case Str(s) => Ok(seq(|s|, k requires 0 <= k < |s| => Str([s[k]])))
    case _ => Err(TypeError("object is not iterable"))
  }

  /** `p` occurs in `s` at some position. */
  predicate IsInfix(p: string, s: string) {
    p <= s || (s != [] && IsInfix(p, s[1..]))
  }

  /** `key in v`: a key of a dict, an item of a list, a substring of a string. */
  function Member(key: string, v: Value): (r: Result<bool, Error>)
    ensures v.Obj? ==> r == Ok(Contains(v.fields, key))
  {
    match v
    case Obj(fields) => Ok(Contains(fields, key))
    case Arr(items) => Ok(Str(key) in items)
    case Str(s) => Ok(IsInfix(key, s))
    case _ => Err(TypeError("argument is not iterable"))
  }

  // ---- One entry ----

  /** The entry takes the named branch: `'name' in file`. */
  predicate IsNamed(entry: Value) {
    Member(NAME_KEY, entry) == Ok(true)
  }

  /** The entry is skipped: `'name' in file` is false. */
  predicate IsUnnamed(entry: Value) {
    Member(NAME_KEY, entry) == Ok(false)
  }

  /** A named entry the handler can upload: a string name and a dict body. */
  predicate Uploadable(entry: Value) {
    && IsNamed(entry)
    && Subscript(entry, NAME_KEY).Ok? && Subscript(entry, NAME_KEY).value.Str?
    && Subscript(entry, BODY_KEY).Ok? && Subscript(entry, BODY_KEY).value.Obj?
  }

  function NameOf(entry: Value): string
    requires Uploadable(entry)
  {
    Subscript(entry, NAME_KEY).value.s
  }

  function BodyOf(entry: Value): seq<Field>
    requires Uploadable(entry)
  {
    Subscript(entry, BODY_KEY).value.fields
  }

  /** The write the handler makes for an uploadable entry: at the key built from
      the entry's name, the UTF-8 bytes of the body enriched with the id read back
      from that key. */
  function PutFor(entry: Value, env: Env): Put
    requires Uploadable(entry) && ValidDate(env.today)
  {
    var key := ConstructFilePath(env.today, env.id, NameOf(entry));
    Put(key, Encode(Dumps(Obj(Enrich(BodyOf(entry), ExtractId(key))))))
  }

  /** Where the handler has got to: the names uploaded, the writes made, the entries
      skipped and the number of environment records consumed. */
  datatype Progress = Progress(uploaded: seq<string>, puts: seq<Put>, skipped: nat, used: nat)

  datatype Outcome = Outcome(progress: Progress, failure: Option<Error>)

  /** The named branch of the loop body for one entry: the write it makes, or the
      exception it raises. */
  function Attempt(entry: Value, env: Env): (r: Result<Put, Error>)
    requires IsNamed(entry) && ValidDate(env.today)
    ensures r.Ok? <==> Uploadable(entry) && env.putOk
    ensures r.Ok? ==> r.value == PutFor(entry, env)
  {
    match Subscript(entry, NAME_KEY)
    case Err(e) => Err(e)
    case Ok(name) =>
      if !name.Str? then Err(TypeError("expected str, bytes or os.PathLike object"))
      else
        var key := ConstructFilePath(env.today, env.id, name.s);
        match Subscript(entry, BODY_KEY)
        case Err(e) => Err(e)
        case Ok(body) =>
          if !body.Obj? then Err(TypeError("object does not support item assignment"))
          else if !env.putOk then Err(PutFailed(key))
          else Ok(PutFor(entry, env))
  }

  /** What handling one more entry does to the progress. */
  function Step(p: Progress, entry: Value, envs: seq<Env>): Outcome
    requires p.used < |envs| && ValidEnvs(envs)
  {
    match Member(NAME_KEY, entry)
    case Err(e) => Outcome(p, Some(e))
    case Ok(false) => Outcome(p.(skipped := p.skipped + 1), None)
    case Ok(true) =>
      match Attempt(entry, envs[p.used])
      case Err(e) => Outcome(p, Some(e))
      case Ok(put) =>
        Outcome(Progress(p.uploaded + [NameOf(entry)], p.puts + [put], p.skipped, p.used + 1), None)
  }

  /** The handler's loop over `files`, left to right, stopping at the first exception. */
  function Run(files: seq<Value>, envs: seq<Env>): (o: Outcome)
    requires |files| <= |envs| && ValidEnvs(envs)
    ensures o.progress.used == |o.progress.uploaded| == |o.progress.puts|
    ensures o.progress.used + o.progress.skipped <= |files|
  {
    if files == [] then Outcome(Progress([], [], 0, 0), None)
    else
      Continue(Run(files[..|files| - 1], envs), files[|files| - 1], envs)
  }

  /** One more entry after the loop has got to `o`: nothing once it has raised. */
  function Continue(o: Outcome, entry: Value, envs: seq<Env>): Outcome
    requires o.progress.used < |envs| && ValidEnvs(envs)
  {
    if o.failure.Some? then o else Step(o.progress, entry, envs)
  }

  /** `files_list = event['files']`, and what `for file in files_list` then walks. */
  function FilesOf(event: Value): (r: Result<seq<Value>, Error>)
    ensures event.Obj? && Get(event.fields, FILES_KEY).Some? && Get(event.fields, FILES_KEY).value.Arr? ==>
      r == Ok(Get(event.fields, FILES_KEY).value.items)
    ensures event.Obj? && !Contains(event.fields, FILES_KEY) ==> r == Err(KeyError(FILES_KEY))
  {
    match Subscript(event, FILES_KEY)
    case Err(e) => Err(e)
    case Ok(v) => Iterate(v)
  }

  /** The number of entries in `event['files']`, or 0 where getting them raises. */
  function EntryCount(event: Value): nat
  {
    match FilesOf(event) case Ok(files) => |files| case Err(_) => 0
  }

  /** `{'files': json.dumps(names)}`. */
  function Response(names: seq<string>): Value
  {
    Obj([Field(FILES_KEY, Str(Dumps(Arr(Strs(names)))))])
  }

  /** What one invocation does: the writes it makes, the count it logs, and what it
      returns or raises. */
  datatype Invocation = Invocation(puts: seq<Put>, skipped: nat, response: Result<Value, Error>)

  function Handle(event: Value, envs: seq<Env>): Invocation
    requires EntryCount(event) <= |envs| && ValidEnvs(envs)
  {
    match FilesOf(event)
    case Err(e) => Invocation([], 0, Err(e))
    case Ok(files) => Conclude(Run(files, envs))
  }

  /** The invocation that ends with the given outcome of the loop. */
  function Conclude(o: Outcome): Invocation
  {
    Invocation(o.progress.puts, o.progress.skipped,
      if o.failure.Some? then Err(o.failure.value) else Ok(Response(o.progress.uploaded)))
  }

  /** The bucket after a sequence of writes: the later write to a key wins. */
  function Stored(objects: map<string, seq<byte>>, puts: seq<Put>): map<string, seq<byte>>
  {
    if puts == [] then objects
    else Stored(objects, puts[..|puts| - 1])[puts[|puts| - 1].key := puts[|puts| - 1].body]
  }

  lemma StoredAppend(objects: map<string, seq<byte>>, puts: seq<Put>, p: Put)
    ensures Stored(objects, puts + [p]) == Stored(objects, puts)[p.key := p.body]
  {
    assert (puts + [p])[..|puts|] == puts;
  }

  /** `construct_json(file['body'], id).encode('utf-8')`, on a fresh dict holding the
      entry's body. */
  method EnrichedBytes(fields: seq<Field>, id: string) returns (bytes: seq<byte>)
    ensures bytes == Encode(Dumps(Obj(Enrich(fields, id))))
  {
    var body := new Dict(fields);
    var text := ConstructJson(body, id);
    bytes := Encode(text);
  }

  /** The function's runtime: the bucket it writes to. */
  class Uploader {
    var objects: map<string, seq<byte>>

    constructor (objects: map<string, seq<byte>>)
      ensures this.objects == objects
    {
      this.objects := objects;
    }

    /** The named branch of the loop body: build the key, read the id back from it,
        enrich the body and write it. */
    method UploadFile(file: Value, env: Env) returns (r: Result<Put, Error>)
      requires IsNamed(file) && ValidDate(env.today)
      modifies this
      ensures r == Attempt(file, env)
      ensures objects == if r.Ok? then old(objects)[r.value.key := r.value.body] else old(objects)
    {
      var fileName := Subscript(file, NAME_KEY);
      if fileName.Err? {
        return Err(fileName.error);
      }
      if !fileName.value.Str? {
        return Err(TypeError("expected str, bytes or os.PathLike object"));
      }
      var key := ConstructFilePath(env.today, env.id, fileName.value.s);
      var id := ExtractId(key);
      var bodyValue := Subscript(file, BODY_KEY);
      if bodyValue.Err? {
        return Err(bodyValue.error);
      }
      if !bodyValue.value.Obj? {
        return Err(TypeError("object does not support item assignment"));
      }
      var bytes := EnrichedBytes(bodyValue.value.fields, id);
      if !env.putOk {
        return Err(PutFailed(key));
      }
      objects := objects[key := bytes];
      r := Ok(Put(key, bytes));
    }

    /** One pass of the loop body over `file`, after the loop has got as far as `p`:
        count an entry without a name, upload one with a name. */
    method VisitEntry(file: Value, envs: seq<Env>, p: Progress, ghost initial: map<string, seq<byte>>)
      returns (o: Outcome)
      requires p.used < |envs| && ValidEnvs(envs)
      requires objects == Stored(initial, p.puts)
      modifies this
      ensures o == Step(p, file, envs)
      ensures objects == Stored(initial, o.progress.puts)
    {
      var named := Member(NAME_KEY, file);
      if named.Err? {
        return Outcome(p, Some(named.error));
      }
      if !named.value {
        StepSkips(p, file, envs);
        return Outcome(p.(skipped := p.skipped + 1), None);
      }
      var attempt := UploadFile(file, envs[p.used]);
      if attempt.Err? {
        StepRaises(p, file, envs);
        return Outcome(p, Some(attempt.error));
      }
      StepWrites(p, file, envs);
      StoredAppend(initial, p.puts, attempt.value);
      var fileName := Subscript(file, NAME_KEY).value.s;
      o := Outcome(Progress(p.uploaded + [fileName], p.puts + [attempt.value], p.skipped, p.used + 1), None);
    }

    /** The `for file in files_list` loop: stops at the first exception. */
    method UploadAll(files: seq<Value>, envs: seq<Env>) returns (o: Outcome)
      requires |files| <= |envs| && ValidEnvs(envs)
      modifies this
      ensures o == Run(files, envs)
      ensures objects == Stored(old(objects), o.progress.puts)
    {
      var progress := Progress([], [], 0, 0);
      for i := 0 to |files|
        invariant Run(files[..i], envs) == Outcome(progress, None)
        invariant objects == Stored(old(objects), progress.puts)
      {
        assert files[..i + 1][..i] == files[..i];
        o := VisitEntry(files[i], envs, progress, old(objects));
        if o.failure.Some? {
          StopsAtFailure(files, i + 1, envs);
          assert files[..|files|] == files;
          return;
        }
        progress := o.progress;
      }
      assert files[..|files|] == files;
      o := Outcome(progress, None);
    }

    method LambdaHandler(event: Value, envs: seq<Env>) returns (response: Result<Value, Error>, ghost logged: nat)
      requires EntryCount(event) <= |envs| && ValidEnvs(envs)
      modifies this
      ensures response == Handle(event, envs).response
      ensures objects == Stored(old(objects), Handle(event, envs).puts)
      ensures response.Ok? ==> logged == Handle(event, envs).skipped
    {
      var filesList := FilesOf(event);
      if filesList.Err? {
        return Err(filesList.error), 0;
      }
      var o := UploadAll(filesList.value, envs);
      if o.failure.Some? {
        return Err(o.failure.value), 0;
      }
      response := Ok(Response(o.progress.uploaded));
      logged := o.progress.skipped;
    }
  }

  // ---- Properties of the handler ----

  /** Once an exception is raised, later entries are not looked at. */
  lemma {:induction false} StopsAtFailure(files: seq<Value>, k: nat, envs: seq<Env>)
    requires k <= |files| <= |envs| && ValidEnvs(envs)
    requires Run(files[..k], envs).failure.Some?
    ensures Run(files, envs) == Run(files[..k], envs)
    decreases |files| - k
  {
    if k < |files| {
      var init := files[..|files| - 1];
      assert init[..k] == files[..k];
      StopsAtFailure(init, k, envs);
    } else {
      assert files[..k] == files;
    }
  }

  /** The entries that take the named branch, in input order. */
  function Named(files: seq<Value>): (r: seq<Value>)
    ensures |r| <= |files|
    ensures forall k :: 0 <= k < |r| ==> IsNamed(r[k])
  {
    if files == [] then []
    else Named(files[..|files| - 1]) + (if IsNamed(files[|files| - 1]) then [files[|files| - 1]] else [])
  }

  /** Every entry of `named` is uploadable. */
  predicate AllUploadable(named: seq<Value>) {
    named == [] || (AllUploadable(named[..|named| - 1]) && Uploadable(named[|named| - 1]))
  }

  /** The names of uploadable entries, in order. */
  function NamesOf(named: seq<Value>): (r: seq<string>)
    requires AllUploadable(named)
    ensures |r| == |named|
  {
    if named == [] then [] else NamesOf(named[..|named| - 1]) + [NameOf(named[|named| - 1])]
  }

  /** The writes for uploadable entries, the k-th with the k-th environment record. */
  function PutsFor(named: seq<Value>, envs: seq<Env>): (r: seq<Put>)
    requires |named| <= |envs| && ValidEnvs(envs) && AllUploadable(named)
    ensures |r| == |named|
  {
    if named == [] then []
    else PutsFor(named[..|named| - 1], envs) + [PutFor(named[|named| - 1], envs[|named| - 1])]
  }

  /** The k-th name is the k-th entry's name. */
  lemma {:induction false} NamesOfAt(named: seq<Value>, k: nat)
    requires AllUploadable(named) && k < |named|
    ensures Uploadable(named[k]) && NamesOf(named)[k] == NameOf(named[k])
  {
    var init := named[..|named| - 1];
    if k < |init| {
      NamesOfAt(init, k);
      assert init[k] == named[k];
    }
  }

  /** The k-th write is the one for the k-th entry with the k-th environment record. */
  lemma {:induction false} PutsForAt(named: seq<Value>, envs: seq<Env>, k: nat)
    requires |named| <= |envs| && ValidEnvs(envs) && AllUploadable(named)
    requires k < |named|
    ensures Uploadable(named[k]) && PutsFor(named, envs)[k] == PutFor(named[k], envs[k])
  {
    var init := named[..|named| - 1];
    if k < |init| {
      assert PutsFor(named, envs)[k] == PutsFor(init, envs)[k];
      PutsForAt(init, envs, k);
      assert init[k] == named[k];
    }
  }

  /** One more named entry that goes through extends the names and writes by its own. */
  lemma StepUploads(p: Progress, entry: Value, envs: seq<Env>, named: seq<Value>)
    requires p.used < |envs| && ValidEnvs(envs) && |named| == p.used
    requires AllUploadable(named) && p.uploaded == NamesOf(named) && p.puts == PutsFor(named, envs)
    requires IsNamed(entry) && Step(p, entry, envs).failure.None?
    ensures AllUploadable(named + [entry])
    ensures Step(p, entry, envs).progress
      == Progress(NamesOf(named + [entry]), PutsFor(named + [entry], envs), p.skipped, p.used + 1)
  {
    StepWrites(p, entry, envs);
    var ext := named + [entry];
    assert ext[..|named|] == named;
  }

  /** A loop that raises no exception writes every named entry, in input order, each
      with the next environment record, remembers their names and skips every other
      entry. */
  lemma {:induction false} RunMatchesNamed(files: seq<Value>, envs: seq<Env>)
    requires |files| <= |envs| && ValidEnvs(envs)
    requires Run(files, envs).failure.None?
    ensures AllUploadable(Named(files))
    ensures var p := Run(files, envs).progress;
      && p.uploaded == NamesOf(Named(files))
      && p.puts == PutsFor(Named(files), envs)
      && p.skipped == |files| - |Named(files)|
  {
    if files != [] {
      var init, last := files[..|files| - 1], files[|files| - 1];
      RunMatchesNamed(init, envs);
      if IsNamed(last) {
        assert Named(files) == Named(init) + [last];
        StepUploads(Run(init, envs).progress, last, envs, Named(init));
      } else {
        assert Named(files) == Named(init);
      }
    }
  }

  /** The k-th entry gets through the loop body: it answers `in` and, when named, has a
      string name and a dict body, and the write for it, made with the environment
      record after those of the named entries before it, succeeds. */
  predicate Passes(files: seq<Value>, envs: seq<Env>, k: nat)
    requires k < |files| <= |envs|
  {
    && Member(NAME_KEY, files[k]).Ok?
    && (IsNamed(files[k]) ==> Uploadable(files[k]) && envs[|Named(files[..k])|].putOk)
  }

  predicate AllPass(files: seq<Value>, envs: seq<Env>)
    requires |files| <= |envs|
  {
    forall k :: 0 <= k < |files| ==> Passes(files, envs, k)
  }

  lemma AllPassSnoc(files: seq<Value>, envs: seq<Env>)
    requires 0 < |files| <= |envs|
    ensures AllPass(files, envs) <==>
      AllPass(files[..|files| - 1], envs) && Passes(files, envs, |files| - 1)
  {
    var init := files[..|files| - 1];
    forall k | 0 <= k < |init| ensures Passes(files, envs, k) == Passes(init, envs, k) {
      assert files[k] == init[k] && files[..k] == init[..k];
    }
  }

  /** One more entry gets through exactly when it answers `in` and, when named, has a
      string name and a dict body and its write succeeds. */
  lemma StepSucceedsIff(p: Progress, entry: Value, envs: seq<Env>)
    requires p.used < |envs| && ValidEnvs(envs)
    ensures Step(p, entry, envs).failure.None? <==>
      Member(NAME_KEY, entry).Ok? && (IsNamed(entry) ==> Uploadable(entry) && envs[p.used].putOk)
  {
  }

  /** The loop ends without an exception exactly when every entry answers `in`, every
      named entry has a string name and a dict body, and every write it makes succeeds. */
  lemma {:induction false} RunSucceedsIff(files: seq<Value>, envs: seq<Env>)
    requires |files| <= |envs| && ValidEnvs(envs)
    ensures Run(files, envs).failure.None? <==> AllPass(files, envs)
  {
    if files != [] {
      var init, last := files[..|files| - 1], files[|files| - 1];
      RunSucceedsIff(init, envs);
      AllPassSnoc(files, envs);
      if Run(init, envs).failure.None? {
        RunMatchesNamed(init, envs);
        assert files[..|init|] == init;
        StepSucceedsIff(Run(init, envs).progress, last, envs);
      }
    }
  }

  /** A call that returns: every named entry was written once, in input order, at
      the key built for it; every other entry was counted as skipped; and the
      `'files'` string of the answer reads back as the names, in input order. */
  lemma HandleReturns(event: Value, envs: seq<Env>)
    requires EntryCount(event) <= |envs| && ValidEnvs(envs)
    requires Handle(event, envs).response.Ok?
    ensures FilesOf(event).Ok?
    ensures var files, h := FilesOf(event).value, Handle(event, envs);
      && AllUploadable(Named(files))
      && h.puts == PutsFor(Named(files), envs)
      && h.skipped + |Named(files)| == |files|
      && h.response.value.Obj? && |h.response.value.fields| == 1
      && h.response.value.fields[0].key == FILES_KEY && h.response.value.fields[0].value.Str?
      && LoadStringArray(h.response.value.fields[0].value.s) == Some(NamesOf(Named(files)))
  {
    var files := FilesOf(event).value;
    RunMatchesNamed(files, envs);
    StringArrayRoundTrip(Run(files, envs).progress.uploaded);
  }

  /** The loop writes at most once per named entry, whether or not it raises. */
  lemma {:induction false} WritesAtMostNamed(files: seq<Value>, envs: seq<Env>)
    requires |files| <= |envs| && ValidEnvs(envs)
    ensures |Run(files, envs).progress.puts| <= |Named(files)|
  {
    if files != [] {
      WritesAtMostNamed(files[..|files| - 1], envs);
    }
  }

  /** When no entry has a name, nothing is written, whether or not the call raises. */
  lemma NoNamedNoWrites(event: Value, envs: seq<Env>)
    requires EntryCount(event) <= |envs| && ValidEnvs(envs)
    requires FilesOf(event).Ok? && Named(FilesOf(event).value) == []
    ensures Handle(event, envs).puts == []
  {
    WritesAtMostNamed(FilesOf(event).value, envs);
  }

  /** An event whose `files` is an empty list: no write, no skip, `{'files': '[]'}`. */
  lemma EmptyFiles(envs: seq<Env>)
    requires ValidEnvs(envs)
    ensures EntryCount(Obj([Field(FILES_KEY, Arr([]))])) == 0
    ensures Handle(Obj([Field(FILES_KEY, Arr([]))]), envs)
      == Invocation([], 0, Ok(Obj([Field(FILES_KEY, Str("[]"))])))
  {
    var event := Obj([Field(FILES_KEY, Arr([]))]);
    assert IndexOf(event.fields, FILES_KEY) == Some(0);
    assert Dumps(Arr(Strs([]))) == "[]";
  }

  /** An event without `files` raises `KeyError('files')` before any write. */
  lemma MissingFiles(event: Value, envs: seq<Env>)
    requires ValidEnvs(envs)
    requires event.Obj? && !Contains(event.fields, FILES_KEY)
    ensures Handle(event, envs) == Invocation([], 0, Err(KeyError(FILES_KEY)))
  {
  }

  /** An entry that raises, after earlier entries went through, ends the loop with
      that exception and with the writes and names of the earlier entries. */
  lemma FailureKeepsEarlierWrites(files: seq<Value>, j: nat, envs: seq<Env>)
    requires j < |files| <= |envs| && ValidEnvs(envs)
    requires Run(files[..j], envs).failure.None?
    requires Step(Run(files[..j], envs).progress, files[j], envs).failure.Some?
    ensures Run(files, envs).progress == Run(files[..j], envs).progress
    ensures Run(files, envs).failure == Step(Run(files[..j], envs).progress, files[j], envs).failure
  {
    assert files[..j + 1][..j] == files[..j];
    StopsAtFailure(files, j + 1, envs);
  }

  /** What such a loop leaves written: the named entries before the failing one, in
      input order, each with the next environment record. */
  lemma FailureWritesNamedBefore(files: seq<Value>, j: nat, envs: seq<Env>)
    requires j < |files| <= |envs| && ValidEnvs(envs)
    requires Run(files[..j], envs).failure.None?
    requires Step(Run(files[..j], envs).progress, files[j], envs).failure.Some?
    ensures Run(files, envs).failure.Some?
    ensures AllUploadable(Named(files[..j]))
    ensures Run(files, envs).progress.uploaded == NamesOf(Named(files[..j]))
    ensures Run(files, envs).progress.puts == PutsFor(Named(files[..j]), envs)
  {
    FailureKeepsEarlierWrites(files, j, envs);
    RunMatchesNamed(files[..j], envs);
  }

  /** A named entry of a dict without `body` raises `KeyError('body')` and writes nothing. */
  lemma MissingBody(p: Progress, entry: Value, envs: seq<Env>)
    requires p.used < |envs| && ValidEnvs(envs)
    requires entry.Obj? && Contains(entry.fields, NAME_KEY) && !Contains(entry.fields, BODY_KEY)
    requires Get(entry.fields, NAME_KEY).value.Str?
    ensures Step(p, entry, envs) == Outcome(p, Some(KeyError(BODY_KEY)))
  {
  }

  /** A write that fails raises, leaving the progress as it was. */
  lemma PutFailure(p: Progress, entry: Value, envs: seq<Env>)
    requires p.used < |envs| && ValidEnvs(envs)
    requires Uploadable(entry) && !envs[p.used].putOk
    ensures Step(p, entry, envs)
      == Outcome(p, Some(PutFailed(ConstructFilePath(envs[p.used].today, envs[p.used].id, NameOf(entry)))))
  {
  }

  /** An entry without a name is only counted: putting another unnamed entry in its
      place (a different `body`, or none) changes nothing the handler does. */
  lemma {:induction false} UnnamedNotRead(files: seq<Value>, j: nat, e: Value, envs: seq<Env>)
    requires j < |files| <= |envs| && ValidEnvs(envs)
    requires IsUnnamed(files[j]) && IsUnnamed(e)
    ensures Run(files[j := e], envs) == Run(files, envs)
  {
    if j == |files| - 1 {
      UnnamedLastNotRead(files, e, envs);
    } else {
      var init, files' := files[..|files| - 1], files[j := e];
      assert files'[..|files| - 1] == init[j := e];
      UnnamedNotRead(init, j, e, envs);
      RunSameLast(files', files, envs);
    }
  }

  /** Two lists whose last entries agree, and on whose other entries the loop ends
      the same way, make the loop end the same way. */
  lemma RunSameLast(a: seq<Value>, b: seq<Value>, envs: seq<Env>)
    requires 0 < |a| == |b| <= |envs| && ValidEnvs(envs)
    requires Run(a[..|a| - 1], envs) == Run(b[..|b| - 1], envs) && a[|a| - 1] == b[|b| - 1]
    ensures Run(a, envs) == Run(b, envs)
  {
  }

  lemma UnnamedLastNotRead(files: seq<Value>, e: Value, envs: seq<Env>)
    requires 0 < |files| <= |envs| && ValidEnvs(envs)
    requires IsUnnamed(files[|files| - 1]) && IsUnnamed(e)
    ensures Run(files[|files| - 1 := e], envs) == Run(files, envs)
  {
    var init := files[..|files| - 1];
    assert files[|files| - 1 := e][..|files| - 1] == init;
    StepSkips(Run(init, envs).progress, files[|files| - 1], envs);
    StepSkips(Run(init, envs).progress, e, envs);
  }

  /** A named entry whose upload raises ends the loop with that exception. */
  lemma StepRaises(p: Progress, entry: Value, envs: seq<Env>)
    requires p.used < |envs| && ValidEnvs(envs)
    requires IsNamed(entry) && Attempt(entry, envs[p.used]).Err?
    ensures Step(p, entry, envs) == Outcome(p, Some(Attempt(entry, envs[p.used]).error))
  {
  }

  /** A named entry whose upload succeeds adds its name and its write. */
  lemma StepWrites(p: Progress, entry: Value, envs: seq<Env>)
    requires p.used < |envs| && ValidEnvs(envs)
    requires IsNamed(entry) && Attempt(entry, envs[p.used]).Ok?
    ensures Step(p, entry, envs) == Outcome(Progress(p.uploaded + [NameOf(entry)],
      p.puts + [Attempt(entry, envs[p.used]).value], p.skipped, p.used + 1), None)
  {
  }

  /** An entry without a name only adds one to the count of skipped entries. */
  lemma StepSkips(p: Progress, entry: Value, envs: seq<Env>)
    requires p.used < |envs| && ValidEnvs(envs)
    requires IsUnnamed(entry)
    ensures Step(p, entry, envs) == Outcome(p.(skipped := p.skipped + 1), None)
  {
  }

  /** The keys written to. */
  function KeysOf(puts: seq<Put>): (r: set<string>)
    ensures forall k :: 0 <= k < |puts| ==> puts[k].key in r
  {
    if puts == [] then {} else KeysOf(puts[..|puts| - 1]) + {puts[|puts| - 1].key}
  }

  /** A key no write went to is not among the keys written to. */
  lemma {:induction false} KeysOfBelow(puts: seq<Put>, key: string)
    requires forall k :: 0 <= k < |puts| ==> puts[k].key != key
    ensures key !in KeysOf(puts)
  {
    if puts != [] {
      var init := puts[..|puts| - 1];
      assert forall k :: 0 <= k < |init| ==> init[k] == puts[k];
      KeysOfBelow(init, key);
    }
  }

  /** No write goes to a key an earlier write went to. */
  predicate NewKeys(puts: seq<Put>) {
    puts == [] || (NewKeys(puts[..|puts| - 1]) && puts[|puts| - 1].key !in KeysOf(puts[..|puts| - 1]))
  }

  lemma {:induction false} PairwiseNewKeys(puts: seq<Put>)
    requires forall i, j :: 0 <= i < j < |puts| ==> puts[i].key != puts[j].key
    ensures NewKeys(puts)
  {
    if puts != [] {
      var init, last := puts[..|puts| - 1], puts[|puts| - 1];
      assert forall k :: 0 <= k < |init| ==> init[k] == puts[k];
      PairwiseNewKeys(init);
      KeysOfBelow(init, last.key);
    }
  }

  /** Writes to new keys, none of them in the bucket yet, each add one object. */
  lemma {:induction false} StoredFresh(objects: map<string, seq<byte>>, puts: seq<Put>)
    requires NewKeys(puts) && objects.Keys !! KeysOf(puts)
    ensures Stored(objects, puts).Keys == objects.Keys + KeysOf(puts)
    ensures |Stored(objects, puts)| == |objects| + |puts|
  {
    if puts != [] {
      var init, last := puts[..|puts| - 1], puts[|puts| - 1];
      StoredFresh(objects, init);
      MapGrows(Stored(objects, init), last.key, last.body);
    }
  }

  lemma MapGrows(m: map<string, seq<byte>>, key: string, v: seq<byte>)
    requires key !in m
    ensures |m[key := v]| == |m| + 1
  {
    assert m[key := v].Keys == m.Keys + {key};
  }

  /** After writes to new keys, each key holds its write's body, and every key not
      written to what it held before. */
  lemma {:induction false} StoredBodies(objects: map<string, seq<byte>>, puts: seq<Put>)
    requires NewKeys(puts)
    ensures forall k :: 0 <= k < |puts| ==> puts[k].key in Stored(objects, puts)
    ensures forall k :: 0 <= k < |puts| ==> Stored(objects, puts)[puts[k].key] == puts[k].body
    ensures forall key :: key in objects && key !in KeysOf(puts) ==>
      key in Stored(objects, puts) && Stored(objects, puts)[key] == objects[key]
  {
    if puts != [] {
      var init, last := puts[..|puts| - 1], puts[|puts| - 1];
      StoredBodies(objects, init);
      assert forall k :: 0 <= k < |init| ==> init[k] == puts[k] && init[k].key != last.key;
    }
  }

  /** With a different id for every write and no name starting with `/`, no two
      writes of the loop go to the same key. */
  lemma RunKeysDiffer(files: seq<Value>, envs: seq<Env>)
    requires |files| <= |envs| && ValidEnvs(envs)
    requires forall i, j :: 0 <= i < j < |envs| ==> envs[i].id != envs[j].id
    requires forall k :: 0 <= k < |files| && Uploadable(files[k]) ==> !StartsWithSep(NameOf(files[k]))
    requires Run(files, envs).failure.None?
    ensures var puts := Run(files, envs).progress.puts;
      forall i, j :: 0 <= i < j < |puts| ==> puts[i].key != puts[j].key
  {
    var puts := Run(files, envs).progress.puts;
    RunMatchesNamed(files, envs);
    var named := Named(files);
    NamedIn(files);
    forall i, j | 0 <= i < j < |puts|
      ensures puts[i].key != puts[j].key
    {
      var a, b := named[i], named[j];
      assert a in files && b in files;
      PutsForAt(named, envs, i);
      PutsForAt(named, envs, j);
      KeysDiffer(envs[i].today, envs[i].id, NameOf(a), envs[j].today, envs[j].id, NameOf(b));
    }
  }

  /** A call that returns, with a different id for every write and no name starting
      with `/`, adds as many objects to the bucket as there were named entries, each
      holding its body, and leaves every object already there alone. */
  lemma BucketGrows(objects: map<string, seq<byte>>, event: Value, envs: seq<Env>)
    requires EntryCount(event) <= |envs| && ValidEnvs(envs)
    requires Handle(event, envs).response.Ok?
    requires forall i, j :: 0 <= i < j < |envs| ==> envs[i].id != envs[j].id
    requires forall k :: 0 <= k < |FilesOf(event).value| && Uploadable(FilesOf(event).value[k]) ==>
      !StartsWithSep(NameOf(FilesOf(event).value[k]))
    requires objects.Keys !! KeysOf(Handle(event, envs).puts)
    ensures var files, puts := FilesOf(event).value, Handle(event, envs).puts;
      && |Stored(objects, puts)| == |objects| + |Named(files)|
      && (forall k :: 0 <= k < |puts| ==>
            puts[k].key in Stored(objects, puts) && Stored(objects, puts)[puts[k].key] == puts[k].body)
      && (forall key :: key in objects ==> key in Stored(objects, puts) && Stored(objects, puts)[key] == objects[key])
  {
    var files := FilesOf(event).value;
    var puts := Run(files, envs).progress.puts;
    assert Handle(event, envs).puts == puts;
    RunMatchesNamed(files, envs);
    RunKeysDiffer(files, envs);
    PairwiseNewKeys(puts);
    StoredFresh(objects, puts);
    StoredBodies(objects, puts);
  }

  lemma {:induction false} NamedIn(files: seq<Value>)
    ensures forall k :: 0 <= k < |Named(files)| ==> Named(files)[k] in files
  {
    if files != [] {
      NamedIn(files[..|files| - 1]);
    }
  }

  /** The write for an entry whose name holds no `/`: the key is date, id and name
      joined by `/`, and the body is the entry's body enriched with the very id the
      key was built with, so the stored `id` is that id. */
  lemma PutCarriesId(entry: Value, env: Env)
    requires Uploadable(entry) && ValidDate(env.today) && IsUuidText(env.id)
    requires SEP !in NameOf(entry)
    ensures PutFor(entry, env).key == FormatDate(env.today) + "/" + env.id + "/" + NameOf(entry)
    ensures PutFor(entry, env).body == Encode(Dumps(Obj(Enrich(BodyOf(entry), env.id))))
    ensures Get(Enrich(BodyOf(entry), env.id), ID_KEY) == Some(Str(env.id))
  {
    KeyFormat(env.today, env.id, NameOf(entry));
    ExtractIdRoundTrip(env.today, env.id, NameOf(entry));
    EnrichSetsId(BodyOf(entry), env.id);
  }

  /** For a name `dir/base` the stored `id` is `dir`, not the id in the key. */
  lemma NestedNameId(entry: Value, env: Env, dir: string, base: string)
    requires Uploadable(entry) && ValidDate(env.today) && IsUuidText(env.id)
    requires NameOf(entry) == dir + [SEP] + base && dir != [] && SEP !in dir && SEP !in base
    ensures PutFor(entry, env).body == Encode(Dumps(Obj(Enrich(BodyOf(entry), dir))))
    ensures Get(Enrich(BodyOf(entry), dir), ID_KEY) == Some(Str(dir))
  {
    ExtractIdNestedName(env.today, env.id, dir, base);
    EnrichSetsId(BodyOf(entry), dir);
  }

  /** The float texts in the values of `fields` are ASCII. */
  predicate FieldFloatsAscii(fields: seq<Field>) {
    forall k :: 0 <= k < |fields| ==> FloatsAscii(fields[k].value)
  }

  lemma SetFloatsAscii(fields: seq<Field>, key: string, v: Value)
    requires FieldFloatsAscii(fields) && FloatsAscii(v)
    ensures FieldFloatsAscii(Set(fields, key, v))
  {
  }

  /** The enriched body's text is ASCII, so `.encode('utf-8')` gives one byte per
      character, the character's code. */
  lemma EnrichedBytesAreText(fields: seq<Field>, id: string)
    requires FieldFloatsAscii(fields)
    ensures var text := Dumps(Obj(Enrich(fields, id)));
      && |Encode(text)| == |text|
      && forall i :: 0 <= i < |text| ==> Encode(text)[i] as int == text[i] as int
  {
    var withId := Set(fields, ID_KEY, Str(id));
    SetFloatsAscii(fields, ID_KEY, Str(id));
    SetFloatsAscii(withId, COUNT_KEY, Int(NewCount(Get(withId, COUNT_KEY))));
    DumpsAscii(Obj(Enrich(fields, id)));
    EncodeAscii(Dumps(Obj(Enrich(fields, id))));
  }
}
