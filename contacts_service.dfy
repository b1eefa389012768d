/** The contacts access layer: `efetch` and the seven functions returned by
    `makeContactsService`. The awaited HTTP call is not made here: how it
    settles is an input (`Reply`), and each service function returns the
    request it would hand to the HTTP client together with its own outcome. */
module ContactsService {
  import opened Text
  import opened Js

  const BaseUrl: string := "/api/v1/contacts"
  const DefaultLimit: nat := 10
  const NoDetail: string := "No detail"
  const FailurePrefix: string := "Request failed with status "

  datatype Method = GET | POST | PUT | DELETE

  /** The configuration handed to the HTTP client. */
  datatype Request = Request(verb: Method, url: string, headers: map<string, string>, body: Option<Value>)

  /** How the awaited HTTP call settles: it rejects with an error, or it
      resolves with a status code and the decoded response body. */
  datatype Reply = Rejected(error: Exception) | Resolved(status: int, data: Value)

  /** What the service takes from its surroundings: the placeholder avatar
      and the URI component encoder. */
  datatype Env = Env(defaultAvatar: Value, encodeUriComponent: string -> string)

  /** The `{ contact, metadata }` object that listing and searching resolve with. */
  datatype Page = Page(contact: seq<Value>, metadata: Value)

  /** One service call: the request it issues, if any, and how its promise settles. */
  datatype Call<T> = Call(request: Option<Request>, result: Result<T>)

  const LastPageOne: Value := Obj(map["lastPage" := Num(1)])
  const EmptyPage: Page := Page([], LastPageOne)
  const MultipartHeaders: map<string, string> := map["Content-Type" := "multipart/form-data"]

  predicate IsSuccess(status: int) {
    200 <= status < 300
  }

  /** The message of the error `efetch` throws for a status outside
      [200, 300): the status in decimal, then the server's message, or
      "No detail" when that message is falsy. Interpolating a message that
      cannot be converted to text throws instead. */
  function FailureMessage(status: int, message: Value): (r: Result<string>)
    ensures r.Ok? <==> Printable(message)
    ensures r.Err? ==> r.error == ToPrimitiveTypeError
    ensures Truthy(message) && r.Ok? ==>
              r.value == FailurePrefix + IntText(status) + ": " + TemplateText(message).value
    ensures Falsy(message) ==> r == Ok(FailurePrefix + IntText(status) + ": " + NoDetail)
  {
    match TemplateText(Or(message, Str(NoDetail)))
    case Err(e) => Err(e)
    case Ok(detail) => Ok(FailurePrefix + IntText(status) + ": " + detail)
  }

  /** `efetch`: a rejected call is re-thrown as it is; a 2xx status yields
      `body.data`; any other status throws an error naming the status and
      `body.message`. Reading a property of a null or undefined body throws. */
  function Efetch(reply: Reply): (r: Result<Value>)
    ensures reply.Rejected? ==> r == Err(reply.error)
    ensures r.Ok? <==> reply.Resolved? && IsSuccess(reply.status) && !Nullish(reply.data)
    ensures r.Ok? ==> r.value == Prop(reply.data, "data")
    ensures reply.Resolved? && !IsSuccess(reply.status) && !Nullish(reply.data) ==>
              var f := FailureMessage(reply.status, Prop(reply.data, "message"));
              && (f.Ok? ==> r == Err(Error(f.value)))
              && (f.Err? ==> r == Err(ToPrimitiveTypeError))
    ensures reply.Resolved? && Nullish(reply.data) ==>
              r == Err(TypeError(if IsSuccess(reply.status) then "data" else "message"))
  {
    match reply
    case Rejected(e) => Err(e)
    case Resolved(status, body) =>
      if status < 200 || status >= 300 then
        match Get(body, "message")
        case Err(e) => Err(e)
        case Ok(message) =>
          match FailureMessage(status, message)
          case Err(e) => Err(e)
          case Ok(text) => Err(Error(text))
      else
        Get(body, "data")
  }

  /** `{ ...contact, avatar: contact.avatar || DEFAULT_AVATAR }`, for a
      contact that is not null or undefined: a falsy avatar is replaced and
      every other property is copied. */
  function ListAvatar(defaultAvatar: Value, contact: Value): (r: Value)
    ensures r.Obj?
    ensures Truthy(Prop(contact, "avatar")) ==> Prop(r, "avatar") == Prop(contact, "avatar")
    ensures Falsy(Prop(contact, "avatar")) ==> Prop(r, "avatar") == defaultAvatar
    ensures forall k :: k != "avatar" ==> Prop(r, k) == Prop(contact, k)
  {
    SpreadWith(contact, "avatar", Or(Prop(contact, "avatar"), defaultAvatar))
  }

  /** The `.map` callback of the list and search paths, which throws on a
      null or undefined element when it reads its avatar. */
  function NormalizeContact(defaultAvatar: Value, contact: Value): (r: Result<Value>)
    ensures r.Err? <==> Nullish(contact)
    ensures r.Err? ==> r.error == TypeError("avatar")
    ensures r.Ok? ==> r.value == ListAvatar(defaultAvatar, contact)
  {
    match Get(contact, "avatar")
    case Err(e) => Err(e)
    case Ok(_) => Ok(ListAvatar(defaultAvatar, contact))
  }

  /** `contacts.map(...)` with that callback: the first element that throws
      decides the outcome; otherwise element i of the result is element i
      of the input with its avatar defaulted. */
  function MapContacts(defaultAvatar: Value, contacts: seq<Value>): (r: Result<seq<Value>>)
    ensures r.Ok? <==> forall i :: 0 <= i < |contacts| ==> !Nullish(contacts[i])
    ensures r.Err? ==> r.error == TypeError("avatar")
    ensures r.Ok? ==> |r.value| == |contacts|
    ensures r.Ok? ==> forall i :: 0 <= i < |contacts| ==> r.value[i] == ListAvatar(defaultAvatar, contacts[i])
  {
    if contacts == [] then Ok([])
    else
      match NormalizeContact(defaultAvatar, contacts[0])
      case Err(e) => Err(e)
      case Ok(first) =>
        match MapContacts(defaultAvatar, contacts[1..])
        case Err(e) => Err(e)
        case Ok(rest) => Ok([first] + rest)
  }

  /** The guard of the list and search paths: the payload is truthy and its
      `contact` is a truthy array. */
  predicate HasContactArray(data: Value)
    ensures HasContactArray(data) <==> Truthy(data) && Prop(data, "contact").Arr?
  {
    Truthy(data) && Truthy(Prop(data, "contact")) && Prop(data, "contact").Arr?
  }

  /** The shaping shared by `fetchContacts` and `searchContacts`: a payload
      without a contact array becomes the empty page; otherwise every contact
      gets its avatar defaulted, in order, and the server's metadata is kept
      when truthy. */
  function NormalizePage(defaultAvatar: Value, data: Value): (r: Result<Page>)
    ensures !HasContactArray(data) ==> r == Ok(EmptyPage)
    ensures HasContactArray(data) ==>
              var contacts := Prop(data, "contact").elems;
              && (r.Ok? <==> forall i :: 0 <= i < |contacts| ==> !Nullish(contacts[i]))
              && (r.Ok? ==> |r.value.contact| == |contacts|)
              && (r.Ok? ==> forall i :: 0 <= i < |contacts| ==>
                    r.value.contact[i] == ListAvatar(defaultAvatar, contacts[i]))
              && (r.Ok? && Truthy(Prop(data, "metadata")) ==> r.value.metadata == Prop(data, "metadata"))
              && (r.Ok? && Falsy(Prop(data, "metadata")) ==> r.value.metadata == LastPageOne)
    ensures r.Err? ==> r.error == TypeError("avatar")
  {
    if Falsy(data) then Ok(EmptyPage)
    else
      var contact := Prop(data, "contact");
      if Falsy(contact) || !contact.Arr? then Ok(EmptyPage)
      else
        match MapContacts(defaultAvatar, contact.elems)
        case Err(e) => Err(e)
        case Ok(contacts) => Ok(Page(contacts, Or(Prop(data, "metadata"), LastPageOne)))
  }

  /** A `limit` the caller leaves undefined takes its default of 10. */
  function LimitOrDefault(limit: Option<nat>): nat {
    match limit
    case None => DefaultLimit
    case Some(l) => l
  }

  function ListUrl(page: nat, limit: nat): string {
    BaseUrl + "?page=" + NatText(page) + "&limit=" + NatText(limit)
  }

  function SearchUrl(page: nat, limit: nat, query: string): string {
    BaseUrl + "/search?page=" + NatText(page) + "&limit=" + NatText(limit) + "&q=" + query
  }

  function ContactUrl(id: string): string {
    BaseUrl + "/" + id
  }

  /** A request with the HTTP client's defaults: GET, no headers, no body. */
  function GetRequest(url: string): Request {
    Request(GET, url, map[], None)
  }

  /** `fetchContacts(page, limit = 10)`: one GET of the list URL; a failed
      call propagates, a fulfilled one is shaped by `NormalizePage`. */
  function FetchContacts(env: Env, page: nat, limit: Option<nat>, reply: Reply): (c: Call<Page>)
    ensures c.request == Some(GetRequest(ListUrl(page, LimitOrDefault(limit))))
    ensures Efetch(reply).Err? ==> c.result == Err(Efetch(reply).error)
    ensures Efetch(reply).Ok? ==> c.result == NormalizePage(env.defaultAvatar, Efetch(reply).value)
  {
    var request := GetRequest(ListUrl(page, LimitOrDefault(limit)));
    match Efetch(reply)
    case Err(e) => Call(Some(request), Err(e))
    case Ok(data) => Call(Some(request), NormalizePage(env.defaultAvatar, data))
  }

  /** The search-term guard: `!term || typeof term !== 'string' || term.trim() === ''`
      rejects it. */
  predicate IsSearchable(term: Value)
    ensures IsSearchable(term) <==> term.Str? && !AllWhite(term.s)
  {
    !(Falsy(term) || !term.Str? || Trim(term.s) == "")
  }

  /** `searchContacts(page, limit = 10, term)`: issues no request and
      resolves with the empty page unless the term is a string holding a
      character other than white space; otherwise one GET whose `q` is the
      encoded trimmed term, shaped like the list. */
  function SearchContacts(env: Env, page: nat, limit: Option<nat>, term: Value, reply: Reply): (c: Call<Page>)
    ensures c.request.None? <==> !term.Str? || AllWhite(term.s)
    ensures c.request.None? ==> c.result == Ok(EmptyPage)
    ensures c.request.Some? ==>
              c.request.value == GetRequest(SearchUrl(page, LimitOrDefault(limit), env.encodeUriComponent(Trim(term.s))))
    ensures c.request.Some? && Efetch(reply).Err? ==> c.result == Err(Efetch(reply).error)
    ensures c.request.Some? && Efetch(reply).Ok? ==> c.result == NormalizePage(env.defaultAvatar, Efetch(reply).value)
  {
    if !IsSearchable(term) then Call(None, Ok(EmptyPage))
    else
      var request := GetRequest(SearchUrl(page, LimitOrDefault(limit), env.encodeUriComponent(Trim(term.s))));
      match Efetch(reply)
      case Err(e) => Call(Some(request), Err(e))
      case Ok(data) => Call(Some(request), NormalizePage(env.defaultAvatar, data))
  }

  /** `{ ...contact, avatar: contact.avatar ?? DEFAULT_AVATAR }`: only a null
      or undefined avatar is replaced; every other property is copied. */
  function SingleAvatar(defaultAvatar: Value, contact: Value): (r: Value)
    ensures r.Obj?
    ensures !Nullish(Prop(contact, "avatar")) ==> Prop(r, "avatar") == Prop(contact, "avatar")
    ensures Nullish(Prop(contact, "avatar")) ==> Prop(r, "avatar") == defaultAvatar
    ensures forall k :: k != "avatar" ==> Prop(r, k) == Prop(contact, k)
  {
    SpreadWith(contact, "avatar", Coalesce(Prop(contact, "avatar"), defaultAvatar))
  }

  /** `fetchContact(id)`: one GET of the contact's URL. Unlike the list path
      nothing is absorbed: a payload or `contact` that is null or undefined
      throws when it is read. */
  function FetchContact(env: Env, id: string, reply: Reply): (c: Call<Value>)
    ensures c.request == Some(GetRequest(ContactUrl(id)))
    ensures Efetch(reply).Err? ==> c.result == Err(Efetch(reply).error)
    ensures Efetch(reply).Ok? && Nullish(Efetch(reply).value) ==> c.result == Err(TypeError("contact"))
    ensures Efetch(reply).Ok? && !Nullish(Efetch(reply).value) ==>
              var contact := Prop(Efetch(reply).value, "contact");
              && (Nullish(contact) ==> c.result == Err(TypeError("avatar")))
              && (!Nullish(contact) ==> c.result == Ok(SingleAvatar(env.defaultAvatar, contact)))
  {
    var request := GetRequest(ContactUrl(id));
    match Efetch(reply)
    case Err(e) => Call(Some(request), Err(e))
    case Ok(data) =>
      match Get(data, "contact")
      case Err(e) => Call(Some(request), Err(e))
      case Ok(contact) =>
        match Get(contact, "avatar")
        case Err(e) => Call(Some(request), Err(e))
        case Ok(_) => Call(Some(request), Ok(SingleAvatar(env.defaultAvatar, contact)))
  }

  /** `createContact(form)`: POSTs the form as multipart data and settles as `efetch` does. */
  function CreateContact(form: Value, reply: Reply): (c: Call<Value>)
    ensures c.request == Some(Request(POST, BaseUrl, MultipartHeaders, Some(form)))
    ensures c.result == Efetch(reply)
  {
    Call(Some(Request(POST, BaseUrl, MultipartHeaders, Some(form))), Efetch(reply))
  }

  /** `updateContact(id, form)`: PUTs the form to the contact's URL and settles as `efetch` does. */
  function UpdateContact(id: string, form: Value, reply: Reply): (c: Call<Value>)
    ensures c.request == Some(Request(PUT, ContactUrl(id), MultipartHeaders, Some(form)))
    ensures c.result == Efetch(reply)
  {
    Call(Some(Request(PUT, ContactUrl(id), MultipartHeaders, Some(form))), Efetch(reply))
  }

  /** `deleteContact(id)`: DELETEs the contact's URL; its catch block
      re-throws, so it settles as `efetch` does. */
  function DeleteContact(id: string, reply: Reply): (c: Call<Value>)
    ensures c.request == Some(Request(DELETE, ContactUrl(id), map[], None))
    ensures c.result == Efetch(reply)
  {
    var request := Request(DELETE, ContactUrl(id), map[], None);
    match Efetch(reply)
    case Ok(response) => Call(Some(request), Ok(response))
    case Err(e) => Call(Some(request), Err(e))
  }

  /** `deleteAllContacts()`: DELETEs the collection URL and settles as `efetch` does. */
  function DeleteAllContacts(reply: Reply): (c: Call<Value>)
    ensures c.request == Some(Request(DELETE, BaseUrl, map[], None))
    ensures c.result == Efetch(reply)
  {
    Call(Some(Request(DELETE, BaseUrl, map[], None)), Efetch(reply))
  }
}
