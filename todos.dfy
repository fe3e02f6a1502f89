/** The todo routes of server/server.js, run against an in-memory todo
    collection: a map from document id to todo plus the collection's natural
    order. `ObjectID.isValid` is the parameter `validId`, the current time of
    PATCH is the parameter `now`, and a query the database rejects is the
    parameter `fault`. */
module TodoApi {
  import opened Wrappers
  import opened Json
  import opened Seqs

  type Id = string

  /** A stored todo document (without its id, which is the key it is stored under). */
  datatype Todo = Todo(text: string, completed: bool, completedAt: Option<int>)

  /** The todo schema's invariant: a completion time is recorded exactly when
      the todo is completed. */
  predicate Consistent(t: Todo) {
    t.completedAt.Some? <==> t.completed
  }

  const InvalidIdMessage := "Request contains invalid id!"
  const NotFoundMessage := "Requested id not found!"
  const DeleteMissingMessage := "Could not delete id!"
  const UpdateMissingMessage := "Could not find todo with id to update!"
  const AlreadyCompletedMessage := "todo is already set to completed!"

  /** Why a PATCH promise chain rejected: an object thrown with a `status`,
      or a rejection coming from the database, which carries none. */
  datatype Failure = Thrown(status: int, error: string) | Rejected

  /** What a handler sends back as its JSON body. */
  datatype Payload =
    | TodoDoc(id: Id, todo: Todo)              // the document itself
    | TodoEnvelope(id: Id, todo: Todo)         // `{todo}`
    | TodoList(todos: seq<(Id, Todo)>)         // `{todos}`
    | ErrorText(error: string)                 // `{error: "..."}`
    | NoFields                                 // `{}`
    | RejectionValue                           // the rejection value `e`, bare or as `{e}`

  datatype Reply = Reply(status: int, payload: Payload)

  /** The catch block of PATCH: the thrown status, or 400 when there is none. */
  function StatusOf(f: Failure): int
  {
    match f
    case Thrown(status, _) => status
    case Rejected => 400
  }

  /** The catch block of PATCH sends `{error: e.error}`; a database rejection
      has no `error` member, so nothing is left of that object but `{}`. */
  function ErrorPayload(f: Failure): Payload {
    match f
    case Thrown(_, error) => ErrorText(error)
    case Rejected => NoFields
  }

  // ---------------------------------------------------------------------------
  // POST /todos: `new Todo({text: req.body.text})` and its validation
  // ---------------------------------------------------------------------------

  /** The todo schema requires `text`: a string that is not empty. */
  predicate HasValidText(body: Object) {
    "text" in body && body["text"].JStr? && body["text"].s != ""
  }

  // ---------------------------------------------------------------------------
  // PATCH /todos/:id: the completion rule and the `$set` update
  // ---------------------------------------------------------------------------

  /** The only request fields PATCH looks at. */
  const PatchFields: set<string> := {"text", "completed"}

  /** `_.isBoolean(body.completed) && body.completed`. */
  predicate RequestsCompletion(body: Object) {
    "completed" in body && body["completed"] == JBool(true)
  }

  /** The three outcomes of the completion rule. */
  datatype Decision = AlreadyCompleted | StampCompletion | ResetCompletion

  function Decide(wasCompleted: bool, body: Object): Decision {
    if wasCompleted && RequestsCompletion(body) then AlreadyCompleted
    else if RequestsCompletion(body) then StampCompletion
    else ResetCompletion
  }

  /** MongoDB's `$set` of an update document onto a todo: each todo field the
      update names takes the update's value, every other field is kept. */
  function ApplySet(t: Todo, update: Object): Todo {
    Todo(
      if "text" in update && update["text"].JStr? then update["text"].s else t.text,
      if "completed" in update && update["completed"].JBool? then update["completed"].b else t.completed,
      if "completedAt" in update && update["completedAt"].JNum? then Some(update["completedAt"].n)
      else if "completedAt" in update && update["completedAt"].JNull? then None
      else t.completedAt)
  }

  /** The todo that a PATCH with request body `req` at time `now` turns the
      stored todo `t` into, or the failure it throws. */
  function PatchTodo(t: Todo, req: Object, now: int): (r: Result<Todo, Failure>)
    // re-completing is refused, and nothing else is
    ensures r.Err? <==> t.completed && RequestsCompletion(req)
    ensures r.Err? ==> r.error == Thrown(404, AlreadyCompletedMessage)
    // a completion is stamped with the current time
    ensures r.Ok? && RequestsCompletion(req) ==> r.value.completed && r.value.completedAt == Some(now)
    // anything else resets the todo to not completed, whatever it was before
    ensures r.Ok? && !RequestsCompletion(req) ==> !r.value.completed && r.value.completedAt == None
    // the text is replaced exactly when a string text is given
    ensures r.Ok? ==> r.value.text == if "text" in req && req["text"].JStr? then req["text"].s else t.text
    ensures r.Ok? ==> Consistent(r.value)
  {
    var body := Pick(req, PatchFields);
    match Decide(t.completed, body)
    case AlreadyCompleted => Err(Thrown(404, AlreadyCompletedMessage))
    case StampCompletion => Ok(ApplySet(t, body["completedAt" := JNum(now)]))
    case ResetCompletion => Ok(ApplySet(t, body["completedAt" := JNull]["completed" := JBool(false)]))
  }

  /** PATCH reads nothing of the request but `text` and `completed`: two
      requests that agree on those two fields have the same effect, so a
      caller-supplied `completedAt` (or any other field) is dropped. */
  lemma PatchOnlyReadsTextAndCompleted(t: Todo, req1: Object, req2: Object, now: int)
    requires forall k :: k in PatchFields ==> (k in req1 <==> k in req2)
    requires forall k :: k in PatchFields && k in req1 ==> req1[k] == req2[k]
    ensures PatchTodo(t, req1, now) == PatchTodo(t, req2, now)
  {
  }

  /** Completing a todo and then asking for completion again is refused. */
  lemma CompletingTwiceFails(t: Todo, req: Object, now1: int, now2: int)
    requires RequestsCompletion(req)
    requires PatchTodo(t, req, now1).Ok?
    ensures PatchTodo(PatchTodo(t, req, now1).value, req, now2) == Err(Thrown(404, AlreadyCompletedMessage))
  {
  }

  // ---------------------------------------------------------------------------
  // GET /todos: the collection in its natural order
  // ---------------------------------------------------------------------------

  /** The documents named by `order`, paired with their ids. */
  function Listing(todos: map<Id, Todo>, order: seq<Id>): (r: seq<(Id, Todo)>)
    requires forall i :: 0 <= i < |order| ==> order[i] in todos
    ensures |r| == |order|
    ensures forall i :: 0 <= i < |r| ==> r[i] == (order[i], todos[order[i]])
  {
    if order == [] then [] else [(order[0], todos[order[0]])] + Listing(todos, order[1..])
  }

  /** The todo collection: documents by id and their natural order. */
  class TodoStore {
    var todos: map<Id, Todo>
    var order: seq<Id>

    ghost predicate Valid()
      reads this
    {
      && Distinct(order)
      && (forall id :: id in todos <==> id in order)
      && (forall id :: id in todos ==> Consistent(todos[id]))
    }

    constructor ()
      ensures Valid() && todos == map[] && order == []
    {
      todos := map[];
      order := [];
    }

    /** The collection holds exactly as many todos as its order lists. */
    lemma SizeIsOrderLength()
      requires Valid()
      ensures |todos| == |order|
    {
      assert todos.Keys == set id | id in order;
      DistinctCardinality(order);
    }

    /** POST /todos. The database hands out `newId`, an id not yet in use. */
    method Create(body: Object, newId: Id, fault: bool) returns (reply: Reply)
      requires Valid()
      requires newId !in todos
      modifies this
      ensures Valid()
      ensures reply.status == 200 <==> HasValidText(body) && !fault
      ensures reply.status == 200 ==>
        && reply == Reply(200, TodoDoc(newId, Todo(body["text"].s, false, None)))
        && todos == old(todos)[newId := Todo(body["text"].s, false, None)]
        && order == old(order) + [newId]
      ensures reply.status != 200 ==>
        reply == Reply(400, RejectionValue) && todos == old(todos) && order == old(order)
    {
      if !HasValidText(body) || fault {
        return Reply(400, RejectionValue);
      }
      var doc := Todo(body["text"].s, false, None);
      todos := todos[newId := doc];
      order := order + [newId];
      reply := Reply(200, TodoDoc(newId, doc));
    }

    /** GET /todos. */
    method List(fault: bool) returns (reply: Reply)
      requires Valid()
      ensures fault ==> reply == Reply(400, RejectionValue)
      ensures !fault ==> reply.status == 200 && reply.payload.TodoList?
      // every stored todo, once each, in the collection's order
      ensures !fault ==> |reply.payload.todos| == |order| == |todos|
      ensures !fault ==> forall i :: 0 <= i < |reply.payload.todos| ==>
        reply.payload.todos[i] == (order[i], todos[order[i]])
    {
      if fault {
        return Reply(400, RejectionValue);
      }
      SizeIsOrderLength();
      reply := Reply(200, TodoList(Listing(todos, order)));
    }

    /** GET /todos/:id. */
    method Get(id: string, validId: string -> bool, fault: bool) returns (reply: Reply)
      ensures !validId(id) ==> reply == Reply(404, ErrorText(InvalidIdMessage))
      ensures validId(id) && fault ==> reply == Reply(400, NoFields)
      ensures validId(id) && !fault && id !in todos ==> reply == Reply(404, ErrorText(NotFoundMessage))
      ensures validId(id) && !fault && id in todos ==> reply == Reply(200, TodoEnvelope(id, todos[id]))
    {
      if !validId(id) {
        return Reply(404, ErrorText(InvalidIdMessage));
      }
      if fault {
        return Reply(400, NoFields);
      }
      if id !in todos {
        return Reply(404, ErrorText(NotFoundMessage));
      }
      reply := Reply(200, TodoEnvelope(id, todos[id]));
    }

    /** DELETE /todos/:id. */
    method Delete(id: string, validId: string -> bool, fault: bool) returns (reply: Reply)
      requires Valid()
      modifies this
      ensures Valid()
      ensures !validId(id) || fault || id !in old(todos) ==> todos == old(todos) && order == old(order)
      ensures !validId(id) ==> reply == Reply(404, ErrorText(InvalidIdMessage))
      ensures validId(id) && fault ==> reply == Reply(400, RejectionValue)
      ensures validId(id) && !fault && id !in old(todos) ==> reply == Reply(404, ErrorText(DeleteMissingMessage))
      ensures validId(id) && !fault && id in old(todos) ==>
        && reply == Reply(200, TodoEnvelope(id, old(todos)[id]))
        && todos == old(todos) - {id}
        && order == Without(old(order), id)
    {
      if !validId(id) {
        return Reply(404, ErrorText(InvalidIdMessage));
      }
      if fault {
        return Reply(400, RejectionValue);
      }
      if id !in todos {
        return Reply(404, ErrorText(DeleteMissingMessage));
      }
      var removed := todos[id];
      todos := todos - {id};
      order := Without(order, id);
      reply := Reply(200, TodoEnvelope(id, removed));
    }

    /** PATCH /todos/:id: pick `text` and `completed` from the request, apply
        the completion rule to that body in place, then `$set` it. */
    method Patch(id: string, req: Object, now: int, validId: string -> bool, fault: bool)
      returns (reply: Reply)
      requires Valid()
      modifies this
      ensures Valid()
      ensures order == old(order)
      // the status each case ends in
      ensures reply.status == 400 <==> validId(id) && fault
      ensures reply.status == 404 <==>
        !validId(id) || (!fault && (id !in old(todos) || (old(todos)[id].completed && RequestsCompletion(req))))
      ensures reply.status == 200 <==>
        validId(id) && !fault && id in old(todos) && !(old(todos)[id].completed && RequestsCompletion(req))
      ensures !validId(id) ==> reply == Reply(404, ErrorText(InvalidIdMessage)) && todos == old(todos)
      ensures validId(id) && fault ==> reply == Reply(400, NoFields) && todos == old(todos)
      ensures validId(id) && !fault && id !in old(todos) ==>
        reply == Reply(404, ErrorText(UpdateMissingMessage)) && todos == old(todos)
      ensures validId(id) && !fault && id in old(todos) ==>
        match PatchTodo(old(todos)[id], req, now)
        case Err(f) => reply == Reply(StatusOf(f), ErrorPayload(f)) && todos == old(todos)
        case Ok(t) => reply == Reply(200, TodoDoc(id, t)) && todos == old(todos)[id := t]
    {
      if !validId(id) {
        return Reply(404, ErrorText(InvalidIdMessage));
      }
      var body := Pick(req, PatchFields);
      var failure: Option<Failure> := None;
      if fault {
        failure := Some(Rejected);
      } else if id !in todos {
        failure := Some(Thrown(404, UpdateMissingMessage));
      } else {
        var temp := todos[id];
        if temp.completed && RequestsCompletion(body) {
          failure := Some(Thrown(404, AlreadyCompletedMessage));
        } else if RequestsCompletion(body) {
          body := body["completedAt" := JNum(now)];
        } else {
          body := body["completedAt" := JNull];
          body := body["completed" := JBool(false)];
        }
      }
      match failure
      case Some(f) =>
        reply := Reply(StatusOf(f), ErrorPayload(f));
      case None =>
        var updated := ApplySet(todos[id], body);
        todos := todos[id := updated];
        reply := Reply(200, TodoDoc(id, updated));
    }
  }

  /** A todo created by POST is found by GET with its text, not completed and
      without a completion time. */
  method CreateThenGet(store: TodoStore, text: string, newId: Id, validId: string -> bool)
    returns (created: Reply, fetched: Reply)
    requires store.Valid() && newId !in store.todos && validId(newId) && text != ""
    modifies store
    ensures created == Reply(200, TodoDoc(newId, Todo(text, false, None)))
    ensures fetched == Reply(200, TodoEnvelope(newId, Todo(text, false, None)))
  {
    created := store.Create(map["text" := JStr(text)], newId, false);
    fetched := store.Get(newId, validId, false);
  }

  /** Marking a todo completed twice: the first PATCH stamps it, the second
      is refused with 404 and leaves the collection as the first left it. */
  method CompleteTwice(store: TodoStore, id: Id, now1: int, now2: int, validId: string -> bool)
    returns (first: Reply, second: Reply)
    requires store.Valid() && id in store.todos && validId(id) && !store.todos[id].completed
    modifies store
    ensures first.status == 200 && first.payload.TodoDoc?
    ensures first.payload.todo.completed && first.payload.todo.completedAt == Some(now1)
    ensures second == Reply(404, ErrorText(AlreadyCompletedMessage))
    ensures store.todos == old(store.todos)[id := first.payload.todo]
  {
    var req := map["completed" := JBool(true)];
    first := store.Patch(id, req, now1, validId, false);
    second := store.Patch(id, req, now2, validId, false);
  }
}
