/** The notes data-access hooks of lib/hooks/use-notes.ts. Each query or mutation function is a
    decision over the session and the store's reply, and is modelled as a pure function from
    those inputs to the value it resolves with or throws and the request it sends to the store.
    The class NotesHooks runs them the way the mutation wiring does: it records each request
    sent and, after a success only, marks the query keys that `onSuccess` invalidates. */
module NotesRepository {
  import opened Wrappers
  import opened Text

  /** A note as the client sees it (lib/types.ts). */
  datatype Note = Note(id: string, title: string, content: string, summary: Option<string>,
                       createdAt: string, updatedAt: string)

  /** A row of the `notes` table: a note plus the owner's id, which the client model omits. */
  datatype Row = Row(id: string, userId: string, title: string, content: string,
                     summary: Option<string>, createdAt: string, updatedAt: string)

  /** The session as far as the hooks use it: present or not, and its user's id. */
  datatype Session = Session(userId: string)

  /** The argument of the create mutation. */
  datatype NoteInput = NoteInput(title: string, content: string, summary: Option<string>)

  /** The argument of the update mutation: an id and optional fields (`Partial<Note>`). */
  datatype UpdateInput = UpdateInput(id: string, title: Option<string>, content: Option<string>,
                                     summary: Option<string>)

  /** The values sent for insertion: the input spread, plus `user_id`. */
  datatype NewRow = NewRow(title: string, content: string, summary: Option<string>, userId: string)

  /** The columns an update sends. A field that is `undefined` is dropped when the request is
      serialised, so `None` means that column is not written. */
  datatype Patch = Patch(title: Option<string>, content: Option<string>, summary: Option<string>,
                         updatedAt: string)

  /** The requests the hooks send to the `notes` table. */
  datatype StoreRequest =
    | SelectAll(orderColumn: string, ascending: bool)
    | Insert(row: NewRow)
    | UpdateById(id: string, patch: Patch)
    | DeleteById(id: string)
    | SelectById(id: string)

  /** An error reported by the store: its code, its message and its JSON serialisation. */
  datatype StoreError = StoreError(code: string, message: string, json: string)

  /** What a hook throws: the store's error object itself, or a new `Error` with a message. */
  datatype Thrown = Rethrown(storeError: StoreError) | Raised(message: string)

  /** The query keys of the cache: `['notes']` and `['note', id]`. */
  datatype QueryKey = NotesKey | NoteKey(id: Option<string>)

  /** One run of a query or mutation function: how it settles and the request it sent, if any. */
  datatype Step<T> = Step(result: Result<T, Thrown>, request: Option<StoreRequest>)

  const UpdatedAtColumn := "updated_at"
  const AuthRequired := "Authentication required to create notes"
  const CreateErrorPrefix := "Error creating note: "
  const NoDataReturned := "Failed to create note - no data returned"
  /** The store's code for "the single row requested does not exist". */
  const NotFoundCode := "PGRST116"

  /** The requests a step sent, as a sequence. */
  function Sent<T>(s: Step<T>): seq<StoreRequest> {
    if s.request.Some? then [s.request.value] else []
  }

  /** The list `queryFn`: without a session it resolves with `[]` and asks nothing; otherwise it
      asks for all rows newest-updated first and rethrows a store error unchanged. */
  function ListQuery(session: Option<Session>, reply: Result<seq<Note>, StoreError>): (s: Step<seq<Note>>)
    ensures session.None? ==> s == Step(Ok([]), None)
    ensures session.Some? ==> s.request == Some(SelectAll(UpdatedAtColumn, false))
    ensures session.Some? && reply.Err? ==> s.result == Err(Rethrown(reply.error))
    ensures session.Some? && reply.Ok? ==> s.result == Ok(reply.value)
    // An empty list means no session or an empty answer from the store, never a masked error.
    ensures s.result == Ok([]) ==> session.None? || reply == Ok([])
  {
    if session.None? then Step(Ok([]), None)
    else
      var request := SelectAll(UpdatedAtColumn, false);
      match reply
      case Err(e) => Step(Err(Rethrown(e)), Some(request))
      case Ok(rows) => Step(Ok(rows), Some(request))
  }

  /** `error.message || JSON.stringify(error)` for a store error. */
  function Describe(e: StoreError): (m: string)
    ensures Truthy(e.message) ==> m == e.message
    ensures !Truthy(e.message) ==> m == e.json
  {
    if Truthy(e.message) then e.message else e.json
  }

  /** The create `mutationFn`. The session check comes before the `try`, so its error is not
      prefixed and nothing is inserted; inside the `try` every failure, the store's error and
      the missing-data case alike, is rethrown as a new error with the creation prefix. */
  function CreateMutation(session: Option<Session>, input: NoteInput,
                          reply: Result<Option<Note>, StoreError>): (s: Step<Note>)
    ensures session.None? ==> s == Step(Err(Raised(AuthRequired)), None)
    ensures session.Some? ==> s.request.Some? && s.request.value.Insert?
    ensures session.Some? ==>
              var row := s.request.value.row;
              row.title == input.title && row.content == input.content &&
              row.summary == input.summary && row.userId == session.value.userId
    ensures s.result.Ok? <==> session.Some? && reply.Ok? && reply.value.Some?
    ensures s.result.Ok? ==> s.result.value == reply.value.value
    ensures session.Some? && s.result.Err? ==>
              s.result.error.Raised? && StartsWith(s.result.error.message, CreateErrorPrefix)
    ensures session.Some? && reply.Err? ==>
              s.result == Err(Raised(CreateErrorPrefix + Describe(reply.error)))
    ensures session.Some? && reply == Ok(None) ==>
              s.result == Err(Raised(CreateErrorPrefix + NoDataReturned))
  {
    if session.None? then Step(Err(Raised(AuthRequired)), None)
    else
      var request := Insert(NewRow(input.title, input.content, input.summary, session.value.userId));
      match reply
      case Err(e) => Step(Err(Raised(CreateErrorPrefix + Describe(e))), Some(request))
      case Ok(None) => Step(Err(Raised(CreateErrorPrefix + NoDataReturned)), Some(request))
      case Ok(Some(note)) => Step(Ok(note), Some(request))
  }

  /** The update `mutationFn`. It does not check the session. It writes the three fields and the
      given time to the row with the note's id, and rethrows a store error unwrapped. */
  function UpdateMutation(input: UpdateInput, now: string, reply: Result<Note, StoreError>): (s: Step<Note>)
    ensures s.request == Some(UpdateById(input.id, Patch(input.title, input.content, input.summary, now)))
    ensures reply.Err? ==> s.result == Err(Rethrown(reply.error))
    ensures reply.Ok? ==> s.result == Ok(reply.value)
  {
    var request := UpdateById(input.id, Patch(input.title, input.content, input.summary, now));
    match reply
    case Err(e) => Step(Err(Rethrown(e)), Some(request))
    case Ok(note) => Step(Ok(note), Some(request))
  }

  /** The delete `mutationFn`: it resolves with the id it was given, or rethrows the store error. */
  function DeleteMutation(id: string, reply: Result<(), StoreError>): (s: Step<string>)
    ensures s.request == Some(DeleteById(id))
    ensures s.result.Ok? <==> reply.Ok?
    ensures s.result.Ok? ==> s.result.value == id
    ensures reply.Err? ==> s.result == Err(Rethrown(reply.error))
  {
    match reply
    case Err(e) => Step(Err(Rethrown(e)), Some(DeleteById(id)))
    case Ok(_) => Step(Ok(id), Some(DeleteById(id)))
  }

  /** `!!noteId`: the single-note query is enabled only for a non-empty id. */
  predicate NoteQueryEnabled(noteId: Option<string>) {
    noteId.Some? && Truthy(noteId.value)
  }

  /** The single-note `queryFn`: no id gives `null` without a request; the not-found code gives
      `null`; any other store error is rethrown. */
  function NoteQuery(noteId: Option<string>, reply: Result<Note, StoreError>): (s: Step<Option<Note>>)
    ensures !NoteQueryEnabled(noteId) ==> s == Step(Ok(None), None)
    ensures NoteQueryEnabled(noteId) ==> s.request == Some(SelectById(noteId.value))
    ensures NoteQueryEnabled(noteId) && reply.Ok? ==> s.result == Ok(Some(reply.value))
    ensures NoteQueryEnabled(noteId) && reply.Err? ==>
              s.result == if reply.error.code == NotFoundCode then Ok(None) else Err(Rethrown(reply.error))
  {
    if !NoteQueryEnabled(noteId) then Step(Ok(None), None)
    else
      var request := SelectById(noteId.value);
      match reply
      case Ok(note) => Step(Ok(Some(note)), Some(request))
      case Err(e) =>
        if e.code == NotFoundCode then Step(Ok(None), Some(request))
        else Step(Err(Rethrown(e)), Some(request))
  }

  /** The effect of an update patch on a row: the written columns take the patch's values, the
      others keep theirs; id, owner and creation time are never written. */
  function ApplyPatch(row: Row, patch: Patch): (r: Row)
    ensures r.id == row.id && r.userId == row.userId && r.createdAt == row.createdAt
    ensures r.updatedAt == patch.updatedAt
    ensures r.title == patch.title.GetOr(row.title)
    ensures r.content == patch.content.GetOr(row.content)
    ensures r.summary == if patch.summary.Some? then patch.summary else row.summary
  {
    Row(row.id, row.userId, patch.title.GetOr(row.title), patch.content.GetOr(row.content),
        if patch.summary.Some? then patch.summary else row.summary, row.createdAt, patch.updatedAt)
  }

  /** The effect of `.update(patch).eq('id', id)` on a table keyed by id. */
  function ApplyUpdate(table: map<string, Row>, id: string, patch: Patch): (t: map<string, Row>)
    requires forall k :: k in table ==> table[k].id == k
    ensures t.Keys == table.Keys
    ensures forall k :: k in t ==> t[k].id == k
    ensures forall k :: k in table && k != id ==> t[k] == table[k]
    ensures id in table ==> t[id] == ApplyPatch(table[id], patch)
  {
    if id in table then table[id := ApplyPatch(table[id], patch)] else table
  }

  /** An update issued for a full form submission writes exactly the submitted title, content
      and summary and the new time to the matching row, and changes no other row. */
  lemma UpdateWritesSubmittedFields(table: map<string, Row>, id: string, input: NoteInput,
                                    now: string, reply: Result<Note, StoreError>)
    requires forall k :: k in table ==> table[k].id == k
    requires id in table
    ensures var req := UpdateMutation(UpdateInput(id, Some(input.title), Some(input.content),
                                                  input.summary), now, reply).request.value;
            var t := ApplyUpdate(table, req.id, req.patch);
            && t[id].title == input.title && t[id].content == input.content
            && t[id].summary == (if input.summary.Some? then input.summary else table[id].summary)
            && t[id].updatedAt == now && t[id].id == id
            && forall k :: k in table && k != id ==> t[k] == table[k]
  {
  }

  /** The keys the mutations' `onSuccess` handlers invalidate, given the resolved value. */
  function CreateInvalidates(): set<QueryKey> { {NotesKey} }
  function UpdateInvalidates(updated: Note): set<QueryKey> { {NotesKey, NoteKey(Some(updated.id))} }
  function DeleteInvalidates(): set<QueryKey> { {NotesKey} }

  /** The hooks as a client of the store and of the query cache. */
  class NotesHooks {
    /** Every request sent to the store, oldest first. */
    var requests: seq<StoreRequest>
    /** The query keys marked stale by `invalidateQueries`. */
    var invalidated: set<QueryKey>

    constructor ()
      ensures requests == [] && invalidated == {}
    {
      requests := [];
      invalidated := {};
    }

    /** `queryClient.invalidateQueries({queryKey})`. */
    method Invalidate(keys: set<QueryKey>)
      modifies this`invalidated
      ensures invalidated == old(invalidated) + keys
    {
      invalidated := invalidated + keys;
    }

    method FetchNotes(session: Option<Session>, reply: Result<seq<Note>, StoreError>)
      returns (r: Result<seq<Note>, Thrown>)
      modifies this`requests
      ensures r == ListQuery(session, reply).result
      ensures requests == old(requests) + Sent(ListQuery(session, reply))
      ensures session.None? ==> requests == old(requests) && r == Ok([])
    {
      var s := ListQuery(session, reply);
      requests := requests + Sent(s);
      r := s.result;
    }

    /** `createNote.mutateAsync`: the mutation, then `onSuccess` if it resolved. */
    method CreateNote(session: Option<Session>, input: NoteInput, reply: Result<Option<Note>, StoreError>)
      returns (r: Result<Note, Thrown>)
      modifies this`requests, this`invalidated
      ensures r == CreateMutation(session, input, reply).result
      ensures requests == old(requests) + Sent(CreateMutation(session, input, reply))
      ensures invalidated == if r.Ok? then old(invalidated) + CreateInvalidates() else old(invalidated)
      ensures session.None? ==> requests == old(requests) && r == Err(Raised(AuthRequired))
    {
      var s := CreateMutation(session, input, reply);
      requests := requests + Sent(s);
      r := s.result;
      if r.Ok? {
        Invalidate(CreateInvalidates());
      }
    }

    /** `updateNote.mutateAsync`; `onSuccess` uses the id of the row the store returned. */
    method UpdateNote(input: UpdateInput, now: string, reply: Result<Note, StoreError>)
      returns (r: Result<Note, Thrown>)
      modifies this`requests, this`invalidated
      ensures r == UpdateMutation(input, now, reply).result
      ensures requests == old(requests) + Sent(UpdateMutation(input, now, reply))
      ensures invalidated == if r.Ok? then old(invalidated) + UpdateInvalidates(r.value) else old(invalidated)
    {
      var s := UpdateMutation(input, now, reply);
      requests := requests + Sent(s);
      r := s.result;
      if r.Ok? {
        Invalidate(UpdateInvalidates(r.value));
      }
    }

    /** `deleteNote.mutateAsync`. */
    method DeleteNote(id: string, reply: Result<(), StoreError>) returns (r: Result<string, Thrown>)
      modifies this`requests, this`invalidated
      ensures r == DeleteMutation(id, reply).result
      ensures requests == old(requests) + Sent(DeleteMutation(id, reply))
      ensures invalidated == if r.Ok? then old(invalidated) + DeleteInvalidates() else old(invalidated)
    {
      var s := DeleteMutation(id, reply);
      requests := requests + Sent(s);
      r := s.result;
      if r.Ok? {
        Invalidate(DeleteInvalidates());
      }
    }

    /** The `useNote` query; it never invalidates anything. */
    method FetchNote(noteId: Option<string>, reply: Result<Note, StoreError>)
      returns (r: Result<Option<Note>, Thrown>)
      modifies this`requests
      ensures r == NoteQuery(noteId, reply).result
      ensures requests == old(requests) + Sent(NoteQuery(noteId, reply))
    {
      var s := NoteQuery(noteId, reply);
      requests := requests + Sent(s);
      r := s.result;
    }
  }
}
