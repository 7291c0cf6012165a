# Batch uploader handler, modelled in Dafny

This project models `src/lambda_function.py`, the handler of a small serverless
function. The function takes an event holding a list of files and writes each named
file's JSON body to an object store:

- `construct_file_path(file_name)` builds the key `YYYY/MM/DD/<uuid1>/<file_name>`
  with POSIX `os.path.join`.
- `construct_json(body, id)` updates the body in place. It sets `id`, then applies
  the counter rule to `count`: an int becomes `count + 10`, anything else becomes
  `10`. It then serialises the body with `json.dumps`.
- `lambda_handler(event, context)` walks `event['files']` in order. For each entry
  that has a `name`, it builds a key and reads the id back out of it with two
  `os.path.split` calls. It then enriches the entry's `body`, encodes it as UTF-8,
  puts it in the bucket and remembers the name. Entries without a name are counted
  as skipped. It answers `{'files': json.dumps(names)}`.

The Python library behaviour the code relies on is written out in its own modules:

| module | what it models |
|---|---|
| `PosixPath` | POSIX `os.path.join` and `os.path.split` |
| `Numerals` | zero-padded digits for `strftime` and `\uXXXX` |
| `Json` | dicts as insertion-ordered field lists: `d[k]`, `d[k] = v` and `k in d` |
| `JsonText` | `json.dumps` with its default separators and `ensure_ascii`, plus the decoder for a list of strings that reads the answer back |
| `Utf8` | `str.encode('utf-8')` |

The handler itself is split across three modules:

- `FilePath` holds the key and the id extraction.
- `Payload` holds `construct_json`, acting on a `Dict` object whose fields it updates in place.
- `Handler` holds `lambda_handler`, as a method of `Uploader`, whose `objects` field is the bucket.

Some of what the handler uses comes from outside its own code. Each named entry consumes one `Env` record, in order, which supplies three things:

- the date `date.today()` returns;
- the text of `uuid.uuid1()`;
- whether the `put_object` call succeeds.

The loop is also specified by a function. `Run` folds `Step` over `files`, and `Handle` describes the whole invocation: the writes it makes, the count it logs, and the answer it returns or the exception it raises. The method `Uploader.LambdaHandler` is proved to return `Handle`'s answer and to leave the bucket as `Stored` says those writes leave it. The properties of the handler are then proved about `Run` and `Handle`.

Python's duck typing is kept. `event['files']` may be a dict, whose keys are then iterated, or a string. `'name' in file` works on dicts, lists and strings. Each of these duck-typed operations (`event['files']`, iteration, `in`, `file['name']`, `file['body']`, item assignment on the body, the join on the name) and the failing `put_object` returns an `Error` where Python raises. `json.dumps` is the exception: it is modelled as total (see "## Left out").

## Model

| member | source | states |
|---|---|---|
| FilePath.ConstructFilePath | src/lambda_function.py:30-33 | definition: `construct_file_path`, the three-part `os.path.join` of the formatted date, the uuid text and the file name |
| FilePath.ExtractId | src/lambda_function.py:56 | definition: `os.path.split(os.path.split(key)[0])[1]`, the key's second-to-last path segment |
| FilePath.IsLeapYear | src/lambda_function.py:31 | definition: the Gregorian leap-year rule (divisible by 4, centuries only when divisible by 400) |
| FilePath.DaysInMonth | src/lambda_function.py:31 | definition: the number of days in a month of a given year |
| FilePath.ValidDate | src/lambda_function.py:31 | definition: a date `date.today()` can return, year 1 to 9999 and a day within its month (leap years included) |
| FilePath.ParseDate | src/lambda_function.py:31 | definition: reads `YYYY/MM/DD` text back into a date, the inverse the round trip is stated against |
| FilePath.IsUuidText | src/lambda_function.py:32 | definition: the text `str(uuid.uuid1())` has, 36 lower-case hex digits and hyphens at 8, 13, 18 and 23 |
| FilePath.FormatDate | src/lambda_function.py:31 | `strftime('%Y/%m/%d')` is 10 characters: digits with `/` at positions 4 and 7 |
| FilePath.ParseFormatDate | src/lambda_function.py:31 | the formatted date reads back as the same year, month and day (zero padding loses nothing) |
| FilePath.KeyFormat | src/lambda_function.py:30-33 | for a valid date, a uuid text and a name not starting with `/`, the key is exactly `date + "/" + id + "/" + name`; an empty name leaves a trailing `/` |
| FilePath.AbsoluteNameIsKey | src/lambda_function.py:33 | a name starting with `/` makes `os.path.join` discard the date and the id: the key is the name |
| FilePath.KeyDate | src/lambda_function.py:31-33 | the first ten characters of the key read back as the date it was built on |
| FilePath.UuidHasNoSep | src/lambda_function.py:32 | uuid text is non-empty and holds no `/`, so joining cannot break on it |
| FilePath.ExtractIdRoundTrip | src/lambda_function.py:55-56 | the second-to-last path segment of a freshly built key is exactly the id it was built with, whenever the name holds no `/` (the empty name included) |
| FilePath.ExtractIdNestedName | src/lambda_function.py:55-56 | for a name `dir/base` the extraction yields `dir`, not the id |
| FilePath.KeysDiffer | src/lambda_function.py:30-33 | keys built with different ids differ, whatever the dates and (relative) names |
| FilePath.IdInKey | src/lambda_function.py:30-33 | for a relative name, characters 11 to 46 of the key are the id |
| PosixPath.Join | src/lambda_function.py:33 | definition: two-argument POSIX `os.path.join`; an absolute part replaces the path, and a `/` is inserted unless the path is empty or ends in one |
| PosixPath.Join3 | src/lambda_function.py:33 | definition: `os.path.join(a, b, c)`, folding the two-argument join from the left |
| PosixPath.Split | src/lambda_function.py:56 | definition: POSIX `os.path.split`, the head up to the last `/` with trailing `/` stripped unless it is all `/`, and the tail after it |
| PosixPath.JoinRelative | src/lambda_function.py:33 | joining a relative part onto a non-empty path not ending in `/` inserts exactly one `/` |
| PosixPath.SplitJoined | src/lambda_function.py:56 | `os.path.split` of `head/tail`, where the head is non-empty and does not end in `/` and the tail has no `/`, gives back `(head, tail)` |
| PosixPath.LastSepAt | src/lambda_function.py:56 | the split point is right after the last `/` |
| PosixPath.AfterLastSep | src/lambda_function.py:56 | the split index is at most the length and follows a `/` when positive |
| PosixPath.NoSepAfterLast | src/lambda_function.py:56 | no `/` comes after the split index, so the split is at the last `/` |
| PosixPath.StripTrailingSeps | src/lambda_function.py:56 | the stripped head is a prefix of the head and does not end in `/` |
| PosixPath.StrippedOnlySeps | src/lambda_function.py:56 | `rstrip('/')` removes only `/` characters |
| Json.Set | src/lambda_function.py:37-41 | definition: `d[k] = v` on an insertion-ordered dict, replacing the value in place when the key is present and appending the field otherwise |
| Json.Contains | src/lambda_function.py:38 | definition: `k in d` on a dict, true exactly when some field has the key |
| Json.IndexOf | src/lambda_function.py:37-41 | the position of a dict key: the first field with that key, or none when no field has it |
| Json.Get | src/lambda_function.py:38 | `d[k]` is defined exactly when `k in d`, and is the value stored with `k` |
| Json.SetGet | src/lambda_function.py:37 | after `d[k] = v`, `d[k]` is `v` and every other key reads as before |
| Json.SetKeys | src/lambda_function.py:37-41 | `d[k] = v` keeps the key order; a new key is appended at the end; distinct keys stay distinct |
| Json.IndexOfSame | src/lambda_function.py:37-41 | two field lists with the same keys in the same places find every key at the same position |
| Json.IndexOfAppend | src/lambda_function.py:37-41 | appending a field finds an old key where it was, and the new key at the end only if it was absent |
| Json.Keys | src/lambda_function.py:37-41 | the key list has one key per field, in order |
| Payload.PyInt | src/lambda_function.py:39 | definition: `int(body['count'])` for an int or a bool, `True` being 1 and `False` 0 |
| Payload.IsPyInt | src/lambda_function.py:38 | definition: `isinstance(v, int)`, true for ints and for bools |
| Payload.NewCount | src/lambda_function.py:38-41 | definition: the counter rule, `int(count) + 10` for an int or bool `count`, 10 when it is absent or of another type |
| Payload.Enrich | src/lambda_function.py:37-41 | definition: the body's fields after `construct_json` sets `id` and then `count` |
| Payload.ConstructJson | src/lambda_function.py:36-42 | the caller's dict is left holding the enriched fields, and the result is `json.dumps` of exactly that dict |
| Payload.Dict.Lookup | src/lambda_function.py:38 | `body['count']` reads the stored value, or nothing when the key is absent |
| Payload.Dict.SetItem | src/lambda_function.py:37 | item assignment updates in place or appends |
| Payload.EnrichSetsId | src/lambda_function.py:37 | afterwards `id` holds the given id, whether or not the body had one |
| Payload.EnrichCount | src/lambda_function.py:38-41 | an int `count` grows by 10; `True` gives 11 and `False` gives 10; absent or any other type gives 10 |
| Payload.EnrichKeepsOthers | src/lambda_function.py:37-41 | every key other than `id` and `count` keeps its value |
| Payload.EnrichKeys | src/lambda_function.py:37-41 | existing keys keep their order; a missing `id` then a missing `count` are appended; distinct keys stay distinct |
| Payload.EnrichKeepsPositions | src/lambda_function.py:37-41 | every field that is neither `id` nor `count` stays at its position, unchanged |
| Payload.SetPositions | src/lambda_function.py:37 | item assignment leaves every field with another key where it was |
| Payload.EmptyBody | test/test_lambda_function.py:131-142 | `construct_json({}, id)` is `{"id": "<id>", "count": 10}` |
| Payload.EnrichEmpty | test/test_lambda_function.py:131-142 | `{}` becomes `id` followed by `count: 10` |
| Payload.CountedBody | test/test_lambda_function.py:144-155 | `{'id': 'temp', 'count': 7}` becomes `{'id': id, 'count': 17}` in the same order |
| Payload.DumpsPair | src/lambda_function.py:42 | a two-field dict serialises as `{k1: v1, k2: v2}` with `", "` and `": "` separators |
| JsonText.Quote | src/lambda_function.py:42 | definition: a string literal as `json.dumps` writes it, the escaped text between quotes |
| JsonText.JoinWith | src/lambda_function.py:42 | definition: the parts of an array or object joined by the `", "` separator |
| JsonText.LoadStringArray | test/test_lambda_function.py:208 | definition: `json.loads` of the `'files'` answer, for the JSON array of strings `dumps` writes; anything else is rejected |
| JsonText.DecodeItems | test/test_lambda_function.py:208 | definition: the string literals of an array after its `[`, separated by `", "`, up to the closing `]` |
| JsonText.Unquote | test/test_lambda_function.py:208 | definition: a string literal's body decoded up to its closing quote |
| JsonText.DecodeChar | test/test_lambda_function.py:208 | definition: one character of a literal's body, a short escape or `\u` escape decoded, a raw control character rejected |
| JsonText.DecodeUnicode | test/test_lambda_function.py:208 | definition: four hex digits after `\u`, a high surrogate combined with the low surrogate escape after it, a lone surrogate rejected |
| JsonText.EscapeChar | src/lambda_function.py:42 | definition: how `json.dumps` with `ensure_ascii` writes one character of a string: short escapes, printable ASCII as itself, `\uXXXX` otherwise, surrogate pairs above U+FFFF |
| JsonText.Escape | src/lambda_function.py:42 | definition: a string's characters, each escaped |
| JsonText.Dumps | src/lambda_function.py:42 | definition: `json.dumps` with the default `", "` and `": "` separators, dict fields in insertion order |
| JsonText.StringArrayRoundTrip | src/lambda_function.py:68-70 | the `json.dumps` text of a list of names decodes back to that list |
| JsonText.DecodeItemsRoundTrip | src/lambda_function.py:69 | the joined quoted items decode back to the names |
| JsonText.DecodeLastItem | src/lambda_function.py:69 | one quoted item before `]` decodes to one name |
| JsonText.DecodeNextItem | src/lambda_function.py:69 | a quoted item before `, ` decodes to that name, followed by what the rest decodes to |
| JsonText.DecodeItemsCons | src/lambda_function.py:69 | a literal followed by `, ` and further items decodes to its string in front of theirs |
| JsonText.QuotedHead | src/lambda_function.py:42 | a quoted string opens with `"`, then comes the escaped text and the closing `"` |
| JsonText.UnquoteEscape | src/lambda_function.py:69 | every escaped string, followed by its closing quote, reads back as the string itself |
| JsonText.UnquoteStep | src/lambda_function.py:69 | a character that decodes, followed by a body that decodes, reads as the string with that character in front |
| JsonText.EscapeCharHead | src/lambda_function.py:42 | no character's escape is empty or starts with a quote, so no escape closes the literal |
| JsonText.DecodeEscapeChar | src/lambda_function.py:42 | every character's escape, including surrogate pairs above U+FFFF, decodes to that character |
| JsonText.DecodeShortEscape | src/lambda_function.py:42 | the two-character escapes (`\"`, `\\`, `\n`, …) decode back |
| JsonText.DecodeBmpEscape | src/lambda_function.py:42 | a `\uXXXX` escape of a character below U+10000 decodes back |
| JsonText.DecodeSurrogatePair | src/lambda_function.py:42 | the surrogate-pair escape of a character above U+FFFF decodes back |
| JsonText.BmpEscapeShape | src/lambda_function.py:42 | a non-printable character below U+10000 without a short escape is written as `\u` and four hex digits |
| JsonText.DecodeBmpText | src/lambda_function.py:42 | `\u` followed by text is handed to the four-digit decoder |
| JsonText.DecodeBmpValue | src/lambda_function.py:42 | the four hex digits of a character below U+10000 decode to that character and leave the rest |
| JsonText.PairEscapeShape | src/lambda_function.py:42 | a character above U+FFFF is written as the `\u` escapes of its high and low surrogates |
| JsonText.PairEscapeText | src/lambda_function.py:42 | the same two escapes, grouped as two `\uXXXX` texts |
| JsonText.DecodePairEscape | src/lambda_function.py:42 | `\u` followed by a surrogate pair's text is handed to the four-digit decoder |
| JsonText.DecodePairValue | src/lambda_function.py:42 | the digits of a surrogate pair decode to the character above U+FFFF and leave the rest |
| JsonText.PairHalves | src/lambda_function.py:42 | the surrogate halves of a code point above U+FFFF are in their ranges and recombine to it |
| JsonText.DecodePairDigits | src/lambda_function.py:42 | a high and a low surrogate's digits combine into the original code point |
| JsonText.Hex4RoundTrip | src/lambda_function.py:42 | the four lower-case hex digits of a `\u` escape read back as the number |
| JsonText.EscapePlain | test/test_lambda_function.py:131-181 | a string without quotes, backslashes, control or non-ASCII characters is written unescaped |
| JsonText.DumpsAscii | src/lambda_function.py:42 | with `ensure_ascii`, the text of any value whose float texts are ASCII (as every float `repr` is) is ASCII |
| JsonText.EscapeAscii | src/lambda_function.py:42 | an escaped string is ASCII |
| JsonText.EscapeCharAscii | src/lambda_function.py:42 | every character's escape is ASCII |
| JsonText.UnicodeEscapeAscii | src/lambda_function.py:42 | a `\uXXXX` escape is ASCII |
| JsonText.ShortEscapeAscii | src/lambda_function.py:42 | a short escape is ASCII |
| JsonText.PairEscapeAscii | src/lambda_function.py:42 | a surrogate-pair escape is ASCII |
| JsonText.QuoteAscii | src/lambda_function.py:42 | a quoted string is ASCII |
| JsonText.JoinAscii | src/lambda_function.py:42 | ASCII parts joined by an ASCII separator are ASCII |
| JsonText.ConcatAscii | src/lambda_function.py:42 | concatenating ASCII texts gives ASCII |
| JsonText.Hex4 | src/lambda_function.py:42 | a `\u` escape has four digits |
| JsonText.Strs | src/lambda_function.py:69 | definition: the list of names becomes a list of JSON strings, one per name, in order |
| JsonText.QuoteAll | src/lambda_function.py:69 | definition: each name is quoted, in order |
| Numerals.IntToString | src/lambda_function.py:42 | definition: how `json.dumps` writes an int (the `count` among them), `-` then the decimal digits for a negative one |
| Numerals.ParseInt | src/lambda_function.py:42 | definition: reads an optional `-` and decimal digits back into an int, the inverse the round trip is stated against |
| Numerals.ValueOf | src/lambda_function.py:31 | definition: the number a digit string in base 10 or 16 denotes, none for an empty string or one holding a character that is not a digit of the base |
| Numerals.FixedRoundTrip | src/lambda_function.py:31 | a zero-padded decimal or hex rendering reads back as the number |
| Numerals.FixedStep | src/lambda_function.py:31 | if the higher digits read back, so does the whole padded rendering |
| Numerals.FixedSingle | src/lambda_function.py:31 | a single padded digit reads back as the number |
| Numerals.Fixed | src/lambda_function.py:31 | a padded rendering has exactly the width asked for, all digits |
| Numerals.ValueOfBelow | src/lambda_function.py:42 | a digit string of length w is worth less than base^w |
| Numerals.DecimalRoundTrip | src/lambda_function.py:42 | the decimal text of a number reads back as the number |
| Numerals.Decimal | src/lambda_function.py:42 | decimal text is non-empty digits with no leading zero |
| Numerals.IntToStringRoundTrip | src/lambda_function.py:39-42 | the text `json.dumps` gives an int (negative ones included) reads back as the int |
| Numerals.NegativeRoundTrip | src/lambda_function.py:39-42 | `-` followed by the decimal text of a positive number reads back as its negation |
| Numerals.DigitChar | src/lambda_function.py:42 | every digit's character reads back as that digit |
| Utf8.EncodeAscii | src/lambda_function.py:59 | `.encode('utf-8')` of ASCII text is one byte per character, each the character's code |
| Utf8.EncodeChar | src/lambda_function.py:59 | a character is 1 to 4 bytes; ASCII is its own byte; others use only bytes from 0x80 up |
| Utf8.Encode | src/lambda_function.py:59 | the encoding has at least one byte per character |
| Handler.IsInfix | src/lambda_function.py:51 | definition: `p in s` on strings, `p` occurring at some position of `s` |
| Handler.IsNamed | src/lambda_function.py:51 | definition: `'name' in file` is true |
| Handler.IsUnnamed | src/lambda_function.py:64-65 | definition: `'name' in file` is false, so the entry takes the `else` branch |
| Handler.Uploadable | src/lambda_function.py:51-59 | definition: a named entry whose `file['name']` is a string and whose `file['body']` is a dict |
| Handler.NameOf | src/lambda_function.py:53 | definition: `file['name']` of an uploadable entry |
| Handler.BodyOf | src/lambda_function.py:59 | definition: the fields of `file['body']` of an uploadable entry |
| Handler.Continue | src/lambda_function.py:50-65 | definition: the loop after one more entry; nothing more happens once an exception was raised |
| Handler.EntryCount | src/lambda_function.py:48-50 | definition: the number of entries `for file in files_list` walks, 0 where reading them raises |
| Handler.ValidEnvs | src/lambda_function.py:31-32 | definition: every environment record holds a valid date and a uuid text |
| Handler.PutFor | src/lambda_function.py:54-62 | definition: the write made for an entry with a string name and a dict body, at the built key, holding the UTF-8 bytes of the body enriched with the id read back from that key |
| Handler.Step | src/lambda_function.py:51-65 | definition: one pass of the loop body; an entry whose `in` raises stops, an unnamed one is counted, a named one is written or raises |
| Handler.Response | src/lambda_function.py:68-70 | definition: `{'files': json.dumps(files_uploaded)}` |
| Handler.Conclude | src/lambda_function.py:67-70 | definition: the invocation a loop outcome gives, its writes, its skip count and the answer or the exception |
| Handler.Handle | src/lambda_function.py:45-70 | definition: the whole invocation; reading `event['files']` may raise, otherwise the loop runs and its outcome is concluded |
| Handler.Stored | src/lambda_function.py:62 | definition: the bucket after a sequence of `put_object` calls, a later write to a key replacing an earlier one |
| Handler.EnrichedBytes | src/lambda_function.py:59 | the bytes `construct_json(file['body'], id).encode('utf-8')` gives on a fresh dict holding the body are the UTF-8 encoding of the dump of the enriched fields |
| Handler.Subscript | src/lambda_function.py:48 | `v[key]` on a dict is the stored value or `KeyError(key)`; on anything else it is a `TypeError` |
| Handler.Iterate | src/lambda_function.py:50 | definition: `for file in files_list` walks a list's items in order |
| Handler.Member | src/lambda_function.py:51 | definition: `'name' in file` on a dict is key membership |
| Handler.FilesOf | src/lambda_function.py:48-50 | an event without `files` raises `KeyError('files')`; a list under `files` is walked as is |
| Handler.Attempt | src/lambda_function.py:53-62 | the named branch succeeds exactly when the name is a string, the body is a dict and the write succeeds; its write is `PutFor` |
| Handler.Run | src/lambda_function.py:50-65 | the loop uses one environment record per write, and handles no more entries than there are |
| Handler.Uploader.UploadFile | src/lambda_function.py:53-63 | the named branch returns what `Attempt` says and, when it succeeds, writes the body at the key and nothing else |
| Handler.Uploader.LambdaHandler | src/lambda_function.py:45-70 | the method answers or raises as `Handle` says, leaves the bucket as the writes `Handle` lists leave it, and logs `Handle`'s skip count |
| Handler.Uploader.UploadAll | src/lambda_function.py:50-65 | the loop ends as `Run` says and leaves the bucket as its writes leave it |
| Handler.Uploader.VisitEntry | src/lambda_function.py:51-65 | one pass of the loop body does what `Step` says, to the progress and to the bucket |
| Handler.RunMatchesNamed | src/lambda_function.py:50-65 | when the loop ends without an exception, the names listed and the writes made are those of the named entries, in order, and every other entry is counted as skipped |
| Handler.AllUploadable | src/lambda_function.py:53-59 | every entry in a list has a string name and a dict body |
| Handler.NamesOf | src/lambda_function.py:63 | one name per named entry |
| Handler.PutsFor | src/lambda_function.py:54-62 | one write per named entry |
| Handler.NamesOfAt | src/lambda_function.py:63 | the k-th name listed is the k-th named entry's name |
| Handler.PutsForAt | src/lambda_function.py:54-62 | the k-th write is the k-th named entry's, made with the k-th environment record (id and date) |
| Handler.StepUploads | src/lambda_function.py:53-63 | a named entry that is written extends the names and the writes by its own |
| Handler.StepWrites | src/lambda_function.py:59-63 | a named entry whose upload succeeds adds its name and its write and uses one environment record |
| Handler.StepRaises | src/lambda_function.py:53-62 | a named entry whose upload raises ends the loop with that exception and changes nothing |
| Handler.StepSkips | src/lambda_function.py:64-65 | an entry without a name only adds one to the skip count |
| Handler.StepSucceedsIff | src/lambda_function.py:51-62 | one entry raises nothing exactly when it supports `in` and, if named, has a string name, a dict body and a successful write |
| Handler.AllPassSnoc | src/lambda_function.py:50-65 | every entry passes exactly when every earlier one does and the last one does |
| Handler.RunSucceedsIff | src/lambda_function.py:50-65 | the loop ends without an exception exactly when every entry passes: it supports `in` and, when named, has a string name, a dict body and a successful write |
| Handler.HandleReturns | src/lambda_function.py:46-70 | a call that returns wrote once per named entry, in order, counted the rest (uploaded + skipped = entries), and its `'files'` string decodes to the names, in order |
| Handler.NoNamedNoWrites | src/lambda_function.py:51-63 | with no named entry nothing is written |
| Handler.WritesAtMostNamed | src/lambda_function.py:51-62 | the loop makes at most one write per named entry, whether it raises or not |
| Handler.EmptyFiles | test/test_lambda_function.py:201-219 | `{'files': []}` writes nothing, skips nothing and answers `{'files': '[]'}` |
| Handler.MissingFiles | src/lambda_function.py:48 | an event dict without `files` raises `KeyError('files')` before any write |
| Handler.StopsAtFailure | src/lambda_function.py:50-63 | once an entry raises, later entries change nothing |
| Handler.FailureKeepsEarlierWrites | src/lambda_function.py:59-62 | an entry that raises ends the loop with its exception, and with the writes and names of the entries before it |
| Handler.FailureWritesNamedBefore | src/lambda_function.py:50-65 | when the j-th entry is the first to raise, the names and writes are those of the named entries before it |
| Handler.MissingBody | src/lambda_function.py:59 | a named entry without `body` raises `KeyError('body')` and writes nothing |
| Handler.PutFailure | src/lambda_function.py:62 | a failing `put_object` raises for that key, and the entry is neither written nor listed |
| Handler.UnnamedNotRead | src/lambda_function.py:64-65 | an entry without a name is only counted: replacing it by any other unnamed entry changes nothing |
| Handler.UnnamedLastNotRead | src/lambda_function.py:64-65 | replacing a last unnamed entry by another changes nothing |
| Handler.RunSameLast | src/lambda_function.py:50-65 | the loop's result depends only on where it got to before the last entry, and on that entry |
| Handler.StoredAppend | src/lambda_function.py:62 | a further write sets that key to that body |
| Handler.StoredFresh | src/lambda_function.py:62 | writes to new keys, none already in the bucket, each add one object |
| Handler.StoredBodies | src/lambda_function.py:62 | after writes to distinct keys, each key holds its own body; every key not written to holds what it held |
| Handler.BucketGrows | test/test_lambda_function.py:269-283 | with a different id per write and relative names, a call that returns adds one object per named entry, each holding its body, and leaves existing objects alone |
| Handler.RunKeysDiffer | src/lambda_function.py:54 | with a different id per write and relative names, a loop that ends without an exception writes no two objects to the same key |
| Handler.PairwiseNewKeys | src/lambda_function.py:62 | pairwise-distinct keys are each new when written |
| Handler.KeysOfBelow | src/lambda_function.py:62 | a key no write used is not among the written keys |
| Handler.KeysOf | src/lambda_function.py:62 | every written key is among the written keys |
| Handler.MapGrows | src/lambda_function.py:62 | writing a new key grows the bucket by one |
| Handler.PutCarriesId | src/lambda_function.py:54-59 | for a name without `/`, the key is date, id and name joined by `/`, and the stored body's `id` is that same id |
| Handler.NestedNameId | src/lambda_function.py:54-59 | for a name `dir/base`, the stored body's `id` is `dir` |
| Handler.EnrichedBytesAreText | src/lambda_function.py:59 | the bytes written are the `json.dumps` text, one byte per character |
| Handler.SetFloatsAscii | src/lambda_function.py:37-41 | setting `id` and `count` keeps every float text in the body ASCII |
| Handler.Named | src/lambda_function.py:51 | the named entries are at most as many as the entries, and each is named |
| Handler.NamedIn | src/lambda_function.py:51 | each named entry is one of the entries |

## Left out

- Module bootstrap: the environment variables, the parameter-store reads and the client construction (src/lambda_function.py:14-27) are I/O. The bucket is the `objects` field.
- `date.today()` and `uuid.uuid1()` are system calls. They are inputs: one `Env` record per named entry, with valid dates and 36-character lower-case uuid texts (hyphens at 8, 13, 18 and 23).
- Whether `put_object` raises is an input too (`Env.putOk`). The model does not say why it fails.
- The `print` at src/lambda_function.py:67 is modelled only as the ghost count `LambdaHandler` returns. The `context` argument is unused by the code and is not a parameter.
- JsonText.Dumps: `json.dumps` is modelled as total. The ValueError CPython raises for an int longer than its int-to-text digit limit (4300 digits by default) is not modelled. The RecursionError for very deep nesting is not modelled either. The serialisation failure path of src/lambda_function.py:42 is therefore absent.
- Payload.ConstructJson: always returns the text. It does not model `json.dumps` raising on an over-long `count` (for example 4300 nines plus 10) or on very deep nesting.
- Handler.Attempt: its "succeeds exactly when the name is a string, the body a dict and the write succeeds" leaves out a `json.dumps` failure on the enriched body. On such a body the source raises and writes nothing, while the model writes.
- Handler.StepSucceedsIff: the same gap. An entry whose enriched body `json.dumps` cannot serialise raises in the source but passes here.
- Handler.RunSucceedsIff: the same gap. The loop can raise from `json.dumps` in the source on inputs where every entry passes here.
- Dicts with a repeated key: `Obj(fields)` can hold the same key twice, which no Python dict can. Such a body would make `Json.Get` ambiguous and `Dumps` write both fields. `Payload.EnrichKeys` proves that unique keys stay unique (`DistinctKeys`). Nothing requires unique keys of event bodies, so on such a value the model describes an input Python cannot produce.
- Floats: a `Float` value carries the text `repr` gives it. How Python renders a float is not modelled.
- `os.path` is modelled with the POSIX separator only. Windows paths are not modelled.
- `%Y` is always rendered with four digits and years are limited to 1..9999. Platforms that do not pad years below 1000 are not modelled.
- Lone surrogate strings are absent, because a Dafny `string` holds only Unicode scalar values.
- The answer is checked only by the decoder for lists of strings. A general `json.loads` was not needed, and the round trip of whole bodies through it is not modelled.
- The event is a value. Aliasing is not modelled: `construct_json` updates the entry's body in the caller's event, so the caller sees the enriched bodies afterwards, and that is not visible here. The handler passes `construct_json` a fresh `Dict` holding the entry's body (`EnrichedBytes`).
- `Error` reason strings only approximate CPython's messages. Which exception type is raised, and for which key, agrees with the code.
- src/catch_errors.py is not part of this model: it is thin wrappers over the storage client's put, get and list calls, with try/except around them.
- src/lambda_function_context.py is not part of this model: it prints attributes of the platform's context object.

## Notes

The counter rule follows the code, which uses `isinstance(body['count'], int)`. In Python `bool` is a subclass of `int`, so `True` becomes 11 and `False` becomes 10. A description of the rule as accepting only exact integers, with booleans rejected, would give 10 for both. `Payload.EnrichCount` states the behaviour of the code.
