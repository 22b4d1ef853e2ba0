/** The chat store (main.py:95-167): the `saved_chats` directory, one JSON
    file per chat, modelled as a map from file stem to what the file holds.
    Reading a file either fails (bytes that are not UTF-8, text that is not
    JSON) or yields a JSON document, which is an object or some other value. */
module Store {
  import opened Wrappers
  import opened Schema
  import opened Ordering
  import Titles

  /** A key of a JSON object: missing, or present with a value. */
  datatype Field<+T> = Absent | Present(value: T)

  /** The keys of a chat file that the gateway reads or writes. A present
      `title` may be JSON null, which is `None`. */
  datatype Record = Record(
    id: Field<string>,
    title: Field<Option<string>>,
    model: Field<string>,
    timestamp: Field<string>,
    messages: Field<seq<Message>>)

  /** A parsed file: a JSON object, or any other JSON value (an array, a
      number, null, ...) whose content the model does not track. */
  datatype Document = ObjectDoc(rec: Record) | OtherJson

  datatype StoredFile = NotUtf8 | NotJson | Parsed(doc: Document)

  type Directory = map<string, StoredFile>

  datatype StoreError =
    | NotFound       // no file for the id (HTTP 404)
    | ReadError      // the file exists but cannot be read as JSON (HTTP 500)
    | ListingFailed  // an uncaught exception while listing (HTTP 500)

  /** One entry of the chat listing. */
  datatype Summary = Summary(id: string, title: Option<string>, timestamp: string, model: string)

  /** What a save returns to its caller. */
  datatype SaveResult = SaveResult(id: string, title: Option<string>)

  /** `data.get(key, default)`: the value when the key is present, even when
      it is null, and the default only when the key is missing. */
  function FieldOr<T>(f: Field<T>, default: T): T {
    if f.Present? then f.value else default
  }

  /** The summary listed for an object stored under `stem` (main.py:103-108). */
  function Summarize(stem: string, rec: Record): (s: Summary)
    ensures s.id == if rec.id.Present? then rec.id.value else stem
    ensures rec.title.Present? ==> s.title == rec.title.value
    ensures rec.title.Absent? ==> s.title == Some("Untitled")
    ensures rec.timestamp.Absent? ==> s.timestamp == ""
    ensures rec.timestamp.Present? ==> s.timestamp == rec.timestamp.value
    ensures rec.model.Absent? ==> s.model == "general"
    ensures rec.model.Present? ==> s.model == rec.model.value
  {
    Summary(
      FieldOr(rec.id, stem),
      FieldOr(rec.title, Some("Untitled")),
      FieldOr(rec.timestamp, ""),
      FieldOr(rec.model, "general"))
  }

  /** An object missing every key is listed with the defaults throughout. */
  lemma EmptyObjectDefaults(stem: string)
    ensures Summarize(stem, Record(Absent, Absent, Absent, Absent, Absent))
      == Summary(stem, Some("Untitled"), "", "general")
  {
  }

  /** The id a save uses: the supplied one when truthy, else the fresh one
      (main.py:133). */
  function ChooseId(supplied: Option<string>, freshId: string): (id: string)
    ensures IsTruthy(supplied) ==> id == supplied.value
    ensures !IsTruthy(supplied) ==> id == freshId
  {
    if IsTruthy(supplied) then supplied.value else freshId
  }

  /** The record a save writes (main.py:146-152). Every key is present, so
      listing it applies no default: its summary is exactly what was saved. */
  function SavedRecord(id: string, title: Option<string>, model: string, timestamp: string,
                       messages: seq<Message>): (rec: Record)
    ensures Summarize(id, rec) == Summary(id, title, timestamp, model)
    ensures rec.messages == Present(messages)
  {
    Record(Present(id), Present(title), Present(model), Present(timestamp), Present(messages))
  }

  /** Loading a chat (main.py:119-128): NotFound exactly when there is no file,
      a read error distinct from it exactly when the file does not parse, and
      otherwise the parsed document unchanged. */
  function Fetch(dir: Directory, id: string): (r: Result<Document, StoreError>)
    ensures r == Failure(NotFound) <==> id !in dir
    ensures r == Failure(ReadError) <==> id in dir && !dir[id].Parsed?
    ensures r.Success? <==> id in dir && dir[id].Parsed?
    ensures r.Success? ==> Parsed(r.value) == dir[id]
  {
    if id !in dir then Failure(NotFound)
    else if dir[id].Parsed? then Success(dir[id].doc)
    else Failure(ReadError)
  }

  /** The file is an object, the only kind the listing summarises. */
  predicate IsListed(f: StoredFile) {
    f.Parsed? && f.doc.ObjectDoc?
  }

  /** The summaries a single file contributes to the listing. */
  function SummariesOf(stem: string, f: StoredFile): multiset<Summary> {
    if IsListed(f) then multiset{Summarize(stem, f.doc.rec)} else multiset{}
  }

  /** The stems of the listed files. */
  ghost function ListedStems(dir: Directory): set<string> {
    set stem | stem in dir && IsListed(dir[stem])
  }

  /** Some stem of a non-empty directory, fixed once and for all. */
  ghost function Pick(dir: Directory): (stem: string)
    requires dir != map[]
    ensures stem in dir
  {
    var stem :| stem in dir; stem
  }

  lemma RemoveShrinks(dir: Directory, stem: string)
    requires stem in dir
    ensures |dir - {stem}| == |dir| - 1
  {
    assert (dir - {stem}).Keys == dir.Keys - {stem};
  }

  /** All summaries of a directory, as a bag: listing order is whatever order
      the directory yields its files in, so only the bag is determined. */
  ghost function Summaries(dir: Directory): multiset<Summary>
    decreases |dir|
  {
    if dir == map[] then multiset{}
    else
      var stem := Pick(dir);
      RemoveShrinks(dir, stem);
      Summaries(dir - {stem}) + SummariesOf(stem, dir[stem])
  }

  /** The bag does not depend on which file is taken first. */
  lemma {:induction false} SummariesRemove(dir: Directory, stem: string)
    requires stem in dir
    ensures Summaries(dir) == Summaries(dir - {stem}) + SummariesOf(stem, dir[stem])
    decreases |dir|
  {
    var first := Pick(dir);
    if first != stem {
      RemoveShrinks(dir, first);
      RemoveShrinks(dir, stem);
      var both := dir - {first} - {stem};
      assert dir - {stem} - {first} == both;
      SummariesRemove(dir - {first}, stem);
      SummariesRemove(dir - {stem}, first);
    }
  }

  /** One summary per listed file and no other. */
  lemma {:induction false} SummariesSize(dir: Directory)
    ensures |Summaries(dir)| == |ListedStems(dir)|
    decreases |dir|
  {
    if dir != map[] {
      var stem := Pick(dir);
      RemoveShrinks(dir, stem);
      var rest := dir - {stem};
      SummariesSize(rest);
      if IsListed(dir[stem]) {
        assert ListedStems(dir) == ListedStems(rest) + {stem};
      } else {
        assert ListedStems(dir) == ListedStems(rest);
      }
    } else {
      assert ListedStems(dir) == {};
    }
  }

  /** Every listed file is summarised. */
  lemma SummaryOfListedFile(dir: Directory, stem: string)
    requires stem in dir && IsListed(dir[stem])
    ensures Summarize(stem, dir[stem].doc.rec) in Summaries(dir)
  {
    SummariesRemove(dir, stem);
  }

  /** Every summary comes from a listed file; unreadable files and JSON values
      other than objects contribute nothing. */
  lemma {:induction false} SummaryHasSource(dir: Directory, s: Summary)
    requires s in Summaries(dir)
    ensures exists stem :: stem in dir && IsListed(dir[stem]) && s == Summarize(stem, dir[stem].doc.rec)
    decreases |dir|
  {
    var stem := Pick(dir);
    RemoveShrinks(dir, stem);
    var rest := dir - {stem};
    if s in Summaries(rest) {
      SummaryHasSource(rest, s);
      var other :| other in rest && IsListed(rest[other]) && s == Summarize(other, rest[other].doc.rec);
      assert other in dir && dir[other] == rest[other];
    } else {
      assert s in SummariesOf(stem, dir[stem]);
    }
  }

  /** A directory with one well-formed and one malformed file lists exactly
      one summary. */
  lemma CorruptFileSkipped(rec: Record)
    ensures |Summaries(map["good" := Parsed(ObjectDoc(rec)), "bad" := NotJson])| == 1
  {
    var dir := map["good" := Parsed(ObjectDoc(rec)), "bad" := NotJson];
    SummariesSize(dir);
    assert ListedStems(dir) == {"good"};
  }

  /** Most recent first: timestamps never increase along the listing. */
  predicate NewestFirst(s: seq<Summary>) {
    forall i, j :: 0 <= i < j < |s| ==> NotAfter(s[j].timestamp, s[i].timestamp)
  }

  lemma PrependNewest(x: Summary, s: seq<Summary>)
    requires NewestFirst(s)
    requires s == [] || NotAfter(s[0].timestamp, x.timestamp)
    ensures NewestFirst([x] + s)
  {
    forall j | 0 < j < |[x] + s| ensures NotAfter(([x] + s)[j].timestamp, x.timestamp) {
      if j > 1 {
        NotAfterTransitive(s[j - 1].timestamp, s[0].timestamp, x.timestamp);
      }
    }
  }

  /** Inserts `x` before the first entry not newer than it. */
  function InsertNewestFirst(x: Summary, s: seq<Summary>): (r: seq<Summary>)
    requires NewestFirst(s)
    ensures multiset(r) == multiset(s) + multiset{x}
    ensures NewestFirst(r)
    decreases |s|
  {
    if s == [] || NotAfter(s[0].timestamp, x.timestamp) then
      PrependNewest(x, s);
      [x] + s
    else
      var tail := InsertNewestFirst(x, s[1..]);
      assert s == [s[0]] + s[1..];
      NotAfterTotal(s[0].timestamp, x.timestamp);
      assert forall z :: z in tail ==> NotAfter(z.timestamp, s[0].timestamp) by {
        forall z | z in tail ensures NotAfter(z.timestamp, s[0].timestamp) {
          assert z in multiset(tail);
          if z != x {
            assert z in multiset(s[1..]);
            var j :| 0 <= j < |s[1..]| && s[1..][j] == z;
            assert s[j + 1] == z;
          }
        }
      }
      assert NewestFirst([s[0]] + tail) by {
        forall i, j | 0 <= i < j < |[s[0]] + tail|
          ensures NotAfter(([s[0]] + tail)[j].timestamp, ([s[0]] + tail)[i].timestamp)
        {
          if i == 0 { assert ([s[0]] + tail)[j] in tail; }
        }
      }
      [s[0]] + tail
  }

  /** Sorting by timestamp, most recent first (main.py:113): the result is a
      rearrangement of the input and is newest first. */
  function SortNewestFirst(s: seq<Summary>): (r: seq<Summary>)
    ensures multiset(r) == multiset(s)
    ensures NewestFirst(r)
    decreases |s|
  {
    if s == [] then []
    else
      assert s == [s[0]] + s[1..];
      InsertNewestFirst(s[0], SortNewestFirst(s[1..]))
  }

  /** Files on which the listing as written raises an exception it does not
      catch: bytes that are not UTF-8 fail in decoding, and a JSON value that
      is not an object has no `get`. */
  function BreaksListing(f: StoredFile): (breaks: bool)
    ensures breaks ==> !IsListed(f)
    ensures f.NotJson? ==> !breaks
    ensures f.Parsed? && !IsListed(f) ==> breaks
    ensures f.NotUtf8? ==> breaks
  {
    f.NotUtf8? || f == Parsed(OtherJson)
  }

  /** The chat store over the `saved_chats` directory. */
  class ChatStore {
    /** The directory's `.json` files by stem. */
    var files: Directory

    /** Opens the directory, creating it when missing (main.py:27-28). */
    constructor (existing: Directory)
      ensures files == existing
    {
      files := existing;
    }

    /** Saving a chat (main.py:130-158): the file for the chosen id is
        replaced by the new record, every other file is untouched, and the
        caller gets the stored id and title back. */
    method Save(request: SaveChatRequest, freshId: string, now: string) returns (r: SaveResult)
      modifies this
      ensures r.id == ChooseId(request.id, freshId)
      ensures r.title == Titles.DeriveTitle(request.title, request.messages)
      ensures files == old(files)[r.id := Parsed(ObjectDoc(
        SavedRecord(r.id, r.title, request.model, now, request.messages)))]
      ensures Fetch(files, r.id) == Success(ObjectDoc(
        SavedRecord(r.id, r.title, request.model, now, request.messages)))
      ensures forall stem :: stem != r.id ==> Fetch(files, stem) == Fetch(old(files), stem)
    {
      var chatId := ChooseId(request.id, freshId);
      var title := Titles.DeriveTitle(request.title, request.messages);
      var data := SavedRecord(chatId, title, request.model, now, request.messages);
      files := files[chatId := Parsed(ObjectDoc(data))];
      r := SaveResult(chatId, title);
    }

    /** Loading a chat by id. */
    method Get(id: string) returns (r: Result<Document, StoreError>)
      ensures r == Fetch(files, id)
    {
      if id !in files {
        return Failure(NotFound);
      }
      var file := files[id];
      if file.Parsed? {
        r := Success(file.doc);
      } else {
        r := Failure(ReadError);
      }
    }

    /** Deleting a chat (main.py:160-167): succeeds and removes exactly that
        file when it exists, and fails with NotFound otherwise, so a second
        delete of the same id fails. */
    method Delete(id: string) returns (r: Outcome<StoreError>)
      modifies this
      ensures r == Pass <==> id in old(files)
      ensures r.Fail? ==> r.error == NotFound
      ensures files == old(files) - {id}
      ensures id !in files
    {
      if id in files {
        files := files - {id};
        return Pass;
      }
      assert files == files - {id};
      return Fail(NotFound);
    }

    /** Listing the chats (main.py:95-114), with every file that cannot be
        summarised skipped: one summary per JSON object in the directory,
        defaults filled in, most recent first. */
    method List() returns (chats: seq<Summary>)
      ensures multiset(chats) == Summaries(files)
      ensures NewestFirst(chats)
    {
      var found: seq<Summary> := [];
      var rest := files;
      while rest != map[]
        invariant multiset(found) + Summaries(rest) == Summaries(files)
        decreases |rest|
      {
        var stem :| stem in rest;
        SummariesRemove(rest, stem);
        RemoveShrinks(rest, stem);
        var file := rest[stem];
        if file.Parsed? && file.doc.ObjectDoc? {
          found := found + [Summarize(stem, file.doc.rec)];
        }
        rest := rest - {stem};
      }
      chats := SortNewestFirst(found);
    }

    /** Listing the chats exactly as main.py:95-114 does: only JSON syntax
        errors are skipped, so one file that is not UTF-8, or that holds JSON
        other than an object, makes the whole listing fail. */
    method ListAsWritten() returns (r: Result<seq<Summary>, StoreError>)
      ensures r.Failure? <==> exists stem :: stem in files && BreaksListing(files[stem])
      ensures r.Failure? ==> r.error == ListingFailed
      ensures r.Success? ==> multiset(r.value) == Summaries(files) && NewestFirst(r.value)
    {
      var found: seq<Summary> := [];
      var rest := files;
      while rest != map[]
        invariant forall stem :: stem in rest ==> stem in files && rest[stem] == files[stem]
        invariant forall stem :: stem in files && stem !in rest ==> !BreaksListing(files[stem])
        invariant multiset(found) + Summaries(rest) == Summaries(files)
        decreases |rest|
      {
        var stem :| stem in rest;
        SummariesRemove(rest, stem);
        RemoveShrinks(rest, stem);
        var file := rest[stem];
        if file.NotUtf8? || file == Parsed(OtherJson) {
          return Failure(ListingFailed);
        }
        if file.Parsed? && file.doc.ObjectDoc? {
          found := found + [Summarize(stem, file.doc.rec)];
        }
        rest := rest - {stem};
      }
      return Success(SortNewestFirst(found));
    }
  }

  /** A saved chat reads back with its messages in order, and deleting it
      twice fails the second time. */
  method SaveGetDeleteExample(messages: seq<Message>)
  {
    var store := new ChatStore(map[]);
    var saved := store.Save(SaveChatRequest(None, Some("Notes"), "general", messages), "id-1", "2024-05-01T10:00:00");
    assert saved.id == "id-1" && saved.title == Some("Notes");
    var loaded := store.Get(saved.id);
    assert loaded.Success? && loaded.value.rec.messages == Present(messages);
    var first := store.Delete(saved.id);
    assert first == Pass;
    var second := store.Delete(saved.id);
    assert second == Fail(NotFound);
    var gone := store.Get(saved.id);
    assert gone == Failure(NotFound);
  }

  /** A directory holding a JSON array next to a good chat: the listing as
      written fails, the corrected listing returns the good chat alone. */
  method NonObjectFileExample(rec: Record)
  {
    var dir := map["good" := Parsed(ObjectDoc(rec)), "array" := Parsed(OtherJson)];
    SummariesSize(dir);
    assert ListedStems(dir) == {"good"};
    var store := new ChatStore(dir);
    var asWritten := store.ListAsWritten();
    assert "array" in store.files && BreaksListing(store.files["array"]);
    assert asWritten.Failure?;
    var chats := store.List();
    assert |chats| == 1;
  }
}
