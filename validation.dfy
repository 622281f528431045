/** The request-validation middleware: it parses one slot of the request
    (body, query or route params) with a schema, writes the parsed data back
    to that slot, or answers 400 with the schema's issues grouped by field.
    The schema itself is outside the model: it is a function from the slot's
    data to what its `parse` came to. */
module Validation {
  import opened Base

  /** A Zod issue: the path to the offending value and its message. */
  datatype Issue = Issue(path: seq<string>, message: string)

  /** What `schema.parse` came to: the parsed data, a ZodError with its
      issues, or some other error with its `message` (absent or empty allowed). */
  datatype Parse<D> = Parsed(data: D) | ZodFailure(issues: seq<Issue>) | OtherFailure(message: Option<string>)

  /** The reply: pass on to the next handler, a 400 body, or (`Threw`) an
      exception that escapes the catch block, so no 400 body is sent. A grouped reply
      also carries `error: 'Validation failed'` and
      `message: 'Please check your input data'`. */
  datatype Reply =
    | Next
    | ValidationFailed(details: map<string, seq<string>>, fields: seq<string>)
    | Refused(error: string)
    | Threw

  /** The default text of a 400 reply for an error without a message. */
  const FallbackError: string := "Validation error"
  /** The field an issue with an empty joined path is filed under. */
  const RootField: string := "body"

  // ------------------------------------------------------- grouping issues

  /** `path.join('.')`. */
  function Join(path: seq<string>): string {
    if |path| == 0 then ""
    else if |path| == 1 then path[0]
    else path[0] + "." + Join(path[1..])
  }

  /** A joined path is empty only for the empty path and the path of one
      empty segment; any longer path contains a dot. */
  lemma {:induction false} JoinEmpty(path: seq<string>)
    ensures Join(path) == "" <==> |path| == 0 || (|path| == 1 && path[0] == "")
  {
    if |path| > 1 {
      assert Join(path)[|path[0]|] == '.';
    }
  }

  /** `err.path.join('.') || 'body'`. */
  function FieldOf(issue: Issue): string {
    var joined := Join(issue.path);
    if joined == "" then RootField else joined
  }

  /** The names an object literal inherits from `Object.prototype`. Looking
      one of them up in `formattedErrors` finds a method (or, for
      `__proto__`, the prototype object), which is truthy and is not an
      array. */
  const InheritedKeys: set<string> := {
    "constructor", "hasOwnProperty", "isPrototypeOf", "propertyIsEnumerable",
    "toString", "toLocaleString", "valueOf", "__proto__",
    "__defineGetter__", "__defineSetter__", "__lookupGetter__", "__lookupSetter__"}

  /** `field` is a name every object literal already has. */
  predicate Inherited(field: string) {
    field in InheritedKeys
  }

  /** Some issue is filed under an inherited name (`GroupingThrowsIff`). For
      that issue no array is created, and `push` on the inherited value
      throws a TypeError out of the catch block. */
  predicate GroupingThrows(issues: seq<Issue>) {
    issues != [] && (GroupingThrows(issues[..|issues| - 1]) || Inherited(FieldOf(issues[|issues| - 1])))
  }

  /** The grouping throws exactly when some issue's field is inherited. */
  lemma GroupingThrowsIff(issues: seq<Issue>)
    ensures GroupingThrows(issues) <==> exists i :: 0 <= i < |issues| && Inherited(FieldOf(issues[i]))
  {
    if GroupingThrows(issues) {
      var i := ThrowingIssue(issues);
      assert Inherited(FieldOf(issues[i]));
    }
    if exists i :: 0 <= i < |issues| && Inherited(FieldOf(issues[i])) {
      var i :| 0 <= i < |issues| && Inherited(FieldOf(issues[i]));
      ThrowsAt(issues, i);
    }
  }

  /** When the grouping throws, some issue's field is inherited. */
  lemma {:induction false} ThrowingIssue(issues: seq<Issue>) returns (i: nat)
    requires GroupingThrows(issues)
    ensures i < |issues| && Inherited(FieldOf(issues[i]))
  {
    var n := |issues| - 1;
    if Inherited(FieldOf(issues[n])) {
      i := n;
    } else {
      i := ThrowingIssue(issues[..n]);
      assert issues[..n][i] == issues[i];
    }
  }

  /** An issue at an inherited field makes the grouping throw. */
  lemma {:induction false} ThrowsAt(issues: seq<Issue>, i: nat)
    requires i < |issues| && Inherited(FieldOf(issues[i]))
    ensures GroupingThrows(issues)
  {
    var n := |issues| - 1;
    if i < n {
      assert issues[..n][i] == issues[i];
      ThrowsAt(issues[..n], i);
    }
  }

  /** Once a prefix of the issues throws, all of them do. */
  lemma PrefixThrows(issues: seq<Issue>, k: nat)
    requires k <= |issues| && GroupingThrows(issues[..k])
    ensures GroupingThrows(issues)
  {
    var j := ThrowingIssue(issues[..k]);
    assert issues[..k][j] == issues[j];
    ThrowsAt(issues, j);
  }

  /** The `formattedErrors` dictionary and its key order (`Object.keys`). */
  datatype Groups = Groups(details: map<string, seq<string>>, fields: seq<string>)

  /** One step of the `forEach`: the message is appended under its field,
      which is created (and takes the next key position) on first use. */
  function File(g: Groups, field: string, message: string): Groups {
    if field in g.details then Groups(g.details[field := g.details[field] + [message]], g.fields)
    else Groups(g.details[field := [message]], g.fields + [field])
  }

  /** The messages of the issues filed under `field`, in issue order: the
      reference the grouping is checked against. */
  function MessagesFor(issues: seq<Issue>, field: string): seq<string> {
    if issues == [] then []
    else
      var last := issues[|issues| - 1];
      MessagesFor(issues[..|issues| - 1], field) + (if FieldOf(last) == field then [last.message] else [])
  }

  /** The dictionary the `forEach` builds when no issue is filed under an
      inherited name, with its key order: the keys listed are exactly the
      dictionary's, each once. */
  function Group(issues: seq<Issue>): (g: Groups)
    ensures forall i :: 0 <= i < |g.fields| ==> g.fields[i] in g.details
    ensures forall f :: f in g.details ==> f in g.fields
    ensures forall i, j :: 0 <= i < j < |g.fields| ==> g.fields[i] != g.fields[j]
  {
    if issues == [] then Groups(map[], [])
    else
      var last := issues[|issues| - 1];
      File(Group(issues[..|issues| - 1]), FieldOf(last), last.message)
  }

  /** Each field's entry holds exactly the messages of the issues filed under
      it, in issue order, and a field has an entry only if some issue is
      filed under it. */
  lemma {:induction false} GroupedByField(issues: seq<Issue>, f: string)
    ensures f in Group(issues).details <==> MessagesFor(issues, f) != []
    ensures f in Group(issues).details ==> Group(issues).details[f] == MessagesFor(issues, f)
  {
    if issues != [] {
      GroupedByField(issues[..|issues| - 1], f);
    }
  }

  /** Some issue is filed under `field` exactly when it has messages. */
  lemma MessagesForNonEmpty(issues: seq<Issue>, field: string)
    ensures MessagesFor(issues, field) != [] <==> exists i :: 0 <= i < |issues| && FieldOf(issues[i]) == field
  {
    if MessagesFor(issues, field) != [] {
      var i := FiledIndex(issues, field);
      assert FieldOf(issues[i]) == field;
    }
    if exists i :: 0 <= i < |issues| && FieldOf(issues[i]) == field {
      var i :| 0 <= i < |issues| && FieldOf(issues[i]) == field;
      FiledHasMessage(issues, field, i);
    }
  }

  /** A field with messages has an issue filed under it. */
  lemma {:induction false} FiledIndex(issues: seq<Issue>, field: string) returns (i: nat)
    requires MessagesFor(issues, field) != []
    ensures i < |issues| && FieldOf(issues[i]) == field
  {
    var n := |issues| - 1;
    if FieldOf(issues[n]) == field {
      i := n;
    } else {
      i := FiledIndex(issues[..n], field);
      assert issues[..n][i] == issues[i];
    }
  }

  /** An issue filed under a field gives that field a message. */
  lemma {:induction false} FiledHasMessage(issues: seq<Issue>, field: string, i: nat)
    requires i < |issues| && FieldOf(issues[i]) == field
    ensures MessagesFor(issues, field) != []
  {
    var n := |issues| - 1;
    if i < n {
      assert issues[..n][i] == issues[i];
      FiledHasMessage(issues[..n], field, i);
    }
  }

  /** The number of messages filed under the listed fields. */
  function Count(details: map<string, seq<string>>, fields: seq<string>): nat
    requires forall i :: 0 <= i < |fields| ==> fields[i] in details
  {
    if fields == [] then 0
    else Count(details, fields[..|fields| - 1]) + |details[fields[|fields| - 1]]|
  }

  /** Changing an entry that is not listed leaves the count alone. */
  lemma {:induction false} CountUnlisted(details: map<string, seq<string>>, fields: seq<string>, f: string, v: seq<string>)
    requires forall i :: 0 <= i < |fields| ==> fields[i] in details && fields[i] != f
    ensures Count(details[f := v], fields) == Count(details, fields)
  {
    if fields != [] {
      CountUnlisted(details, fields[..|fields| - 1], f, v);
    }
  }

  /** One more message under a field listed once adds one to the count. */
  lemma {:induction false} CountAppend(details: map<string, seq<string>>, fields: seq<string>, f: string, m: string)
    requires forall i :: 0 <= i < |fields| ==> fields[i] in details
    requires forall i, j :: 0 <= i < j < |fields| ==> fields[i] != fields[j]
    requires f in fields
    ensures Count(details[f := details[f] + [m]], fields) == Count(details, fields) + 1
  {
    var n := |fields|;
    var front := fields[..n - 1];
    if fields[n - 1] == f {
      CountUnlisted(details, front, f, details[f] + [m]);
    } else {
      assert f in front;
      CountAppend(details, front, f, m);
    }
  }

  /** No message is dropped: the dictionary holds one message per issue. */
  lemma {:induction false} NoMessageDropped(issues: seq<Issue>)
    ensures Count(Group(issues).details, Group(issues).fields) == |issues|
  {
    if issues != [] {
      var last := issues[|issues| - 1];
      var before := issues[..|issues| - 1];
      var g := Group(before);
      NoMessageDropped(before);
      var f := FieldOf(last);
      if f in g.details {
        CountAppend(g.details, g.fields, f, last.message);
      } else {
        CountUnlisted(g.details, g.fields, f, [last.message]);
        assert (g.fields + [f])[..|g.fields|] == g.fields;
      }
    }
  }

  /** An issue at the root of the data is filed under `body`. */
  lemma RootIssuesUnderBody(message: string)
    ensures Group([Issue([], message)]) == Groups(map[RootField := [message]], [RootField])
  {
    assert FieldOf(Issue([], message)) == RootField;
  }

  /** An issue at a field named `constructor` (a Zod schema with such a
      key) makes the grouping throw, whatever the other issues are. */
  lemma InheritedFieldThrows(before: seq<Issue>, message: string, after: seq<Issue>)
    ensures GroupingThrows(before + [Issue(["constructor"], message)] + after)
  {
    var issues := before + [Issue(["constructor"], message)] + after;
    assert issues[|before|] == Issue(["constructor"], message);
    assert Inherited(FieldOf(issues[|before|]));
    ThrowsAt(issues, |before|);
  }

  /** One iteration of the `forEach` body: create the field's array on first
      use, then push the message. */
  method FileMessage(details: map<string, seq<string>>, fields: seq<string>, field: string, message: string)
    returns (details': map<string, seq<string>>, fields': seq<string>)
    ensures Groups(details', fields') == File(Groups(details, fields), field, message)
  {
    details', fields' := details, fields;
    ghost var none: seq<string> := [];
    assert none + [message] == [message];
    if field !in details' {
      details' := details'[field := []];
      fields' := fields' + [field];
    }
    details' := details'[field := details'[field] + [message]];
    assert field !in details ==> details' == details[field := [message]];
  }

  /** Grouping one more issue files it into the grouping of those before. */
  lemma GroupStep(issues: seq<Issue>, i: nat)
    requires i < |issues|
    ensures Group(issues[..i + 1]) == File(Group(issues[..i]), FieldOf(issues[i]), issues[i].message)
  {
    assert issues[..i + 1][..i] == issues[..i];
  }

  /** The `forEach` over the issues, building the dictionary in place. It
      stops with `threw` at the first issue filed under an inherited name. */
  method GroupIssues(issues: seq<Issue>) returns (threw: bool, details: map<string, seq<string>>, fields: seq<string>)
    ensures threw == GroupingThrows(issues)
    ensures !threw ==> Groups(details, fields) == Group(issues)
  {
    details, fields := map[], [];
    for i := 0 to |issues|
      invariant Groups(details, fields) == Group(issues[..i])
      invariant !GroupingThrows(issues[..i])
    {
      var field := FieldOf(issues[i]);
      assert issues[..i + 1][..i] == issues[..i];
      if Inherited(field) {
        // `formattedErrors[field]` is inherited and truthy, so `push` is not a function
        PrefixThrows(issues, i + 1);
        return true, details, fields;
      }
      GroupStep(issues, i);
      details, fields := FileMessage(details, fields, field, issues[i].message);
    }
    assert issues[..|issues|] == issues;
    threw := false;
  }

  // ------------------------------------------------------- the middleware

  /** The three request slots a schema can validate, and `validatedData`. */
  datatype Slots<D> = Slots(body: D, query: D, params: D, validatedData: Option<D>)

  /** The slot `source` names: 'query', 'params', and the body for anything else. */
  function Selected<D>(req: Slots<D>, source: string): D {
    if source == "query" then req.query
    else if source == "params" then req.params
    else req.body
  }

  /** The 400 reply for a failed parse. */
  function Reject<D>(p: Parse<D>): (r: Reply)
    requires !p.Parsed?
    ensures p.ZodFailure? && GroupingThrows(p.issues) ==> r == Threw
    ensures p.ZodFailure? && !GroupingThrows(p.issues) ==>
      r == ValidationFailed(Group(p.issues).details, Group(p.issues).fields)
    ensures p.OtherFailure? && Truthy(p.message) ==> r == Refused(p.message.value)
    ensures p.OtherFailure? && !Truthy(p.message) ==> r == Refused(FallbackError)
  {
    match p
    case ZodFailure(issues) =>
      if GroupingThrows(issues) then Threw
      else
        var g := Group(issues);
        ValidationFailed(g.details, g.fields)
    case OtherFailure(message) =>
      Refused(if Truthy(message) then message.value else FallbackError)
  }

  /** `validateRequest(schema, source)` applied to a request: the reply and
      the request's slots after it. A successful parse sets `validatedData`
      and replaces the named slot (and only a slot that is named exactly);
      a failed one changes nothing. */
  function Validate<D>(req: Slots<D>, schema: D -> Parse<D>, source: string): (r: (Reply, Slots<D>))
    ensures schema(Selected(req, source)).Parsed? ==>
      var data := schema(Selected(req, source)).data;
      && r.0 == Next
      && r.1.validatedData == Some(data)
      && r.1.body == (if source == "body" then data else req.body)
      && r.1.query == (if source == "query" then data else req.query)
      && r.1.params == (if source == "params" then data else req.params)
    ensures !schema(Selected(req, source)).Parsed? ==> r.1 == req && r.0 == Reject(schema(Selected(req, source)))
  {
    var p := schema(Selected(req, source));
    if !p.Parsed? then (Reject(p), req)
    else
      var written :=
        if source == "body" then req.(body := p.data)
        else if source == "query" then req.(query := p.data)
        else if source == "params" then req.(params := p.data)
        else req;
      (Next, written.(validatedData := Some(p.data)))
  }

  /** Only the selected slot is read: two requests that agree on it get the
      same reply. */
  lemma OnlySelectedSlotRead<D>(a: Slots<D>, b: Slots<D>, schema: D -> Parse<D>, source: string)
    requires Selected(a, source) == Selected(b, source)
    ensures Validate(a, schema, source).0 == Validate(b, schema, source).0
  {
  }

  /** A source outside the three names reads the body but, on success, writes
      no slot back: only `validatedData` changes. */
  lemma UnnamedSourceWritesNoSlot<D>(req: Slots<D>, schema: D -> Parse<D>, source: string)
    requires source != "body" && source != "query" && source != "params"
    requires schema(req.body).Parsed?
    ensures Validate(req, schema, source).1 == req.(validatedData := Some(schema(req.body).data))
  {
  }

  /** The request as the middleware sees it: its slots are overwritten in place. */
  class Request<D> {
    var body: D
    var query: D
    var params: D
    var validatedData: Option<D>

    function View(): Slots<D>
      reads this
    {
      Slots(body, query, params, validatedData)
    }

    constructor (body: D, query: D, params: D)
      ensures View() == Slots(body, query, params, None)
    {
      this.body, this.query, this.params, this.validatedData := body, query, params, None;
    }
  }

  /** The middleware against a request object. */
  method ValidateRequest<D>(req: Request<D>, schema: D -> Parse<D>, source: string) returns (reply: Reply)
    modifies req
    ensures (reply, req.View()) == Validate(old(req.View()), schema, source)
  {
    var input := if source == "query" then req.query else if source == "params" then req.params else req.body;
    var parsed := schema(input);
    if !parsed.Parsed? {
      if parsed.ZodFailure? {
        var threw, details, fields := GroupIssues(parsed.issues);
        if threw {
          return Threw;
        }
        return ValidationFailed(details, fields);
      }
      return Refused(if Truthy(parsed.message) then parsed.message.value else FallbackError);
    }
    req.validatedData := Some(parsed.data);
    if source == "body" {
      req.body := parsed.data;
    } else if source == "query" {
      req.query := parsed.data;
    } else if source == "params" {
      req.params := parsed.data;
    }
    return Next;
  }
}
