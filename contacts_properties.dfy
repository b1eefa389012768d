/** Properties of the contacts access layer that relate several calls or
    several inputs: what the error message of `efetch` determines, how the
    URLs tell pages apart, how the search guard behaves, and how the list and
    single-contact reads default avatars differently. */
module ContactsProperties {
  import opened Text
  import opened Js
  import opened ContactsService

  /** The failure message determines the status and the detail text: two
      failures with the same message had the same status. */
  lemma FailureMessageDeterminesStatus(s1: int, m1: Value, s2: int, m2: Value)
    requires FailureMessage(s1, m1).Ok? && FailureMessage(s1, m1) == FailureMessage(s2, m2)
    ensures s1 == s2
    ensures TemplateText(Or(m1, Str(NoDetail))) == TemplateText(Or(m2, Str(NoDetail)))
  {
    var d1, d2 := TemplateText(Or(m1, Str(NoDetail))).value, TemplateText(Or(m2, Str(NoDetail))).value;
    var a1, a2 := IntText(s1), IntText(s2);
    MessageShape(s1, m1);
    MessageShape(s2, m2);
    CancelPrefix(FailurePrefix, a1 + [':'] + (" " + d1), a2 + [':'] + (" " + d2));
    SplitAtSeparator(a1, " " + d1, a2, " " + d2, ':');
    IntTextInjective(s1, s2);
    CancelPrefix(" ", d1, d2);
  }

  lemma MessageShape(status: int, message: Value)
    requires FailureMessage(status, message).Ok?
    ensures TemplateText(Or(message, Str(NoDetail))).Ok?
    ensures FailureMessage(status, message).value ==
              FailurePrefix + (IntText(status) + [':'] + (" " + TemplateText(Or(message, Str(NoDetail))).value))
  {
  }

  /** A server message that is an object with its own `toString` key cannot
      be interpolated: `efetch` throws that TypeError instead of the
      "Request failed" error. */
  lemma UnprintableMessageThrows()
    ensures Efetch(Resolved(500, Obj(map["message" := Obj(map["toString" := Num(1)])]))) ==
              Err(ToPrimitiveTypeError)
  {
    var body := Obj(map["message" := Obj(map["toString" := Num(1)])]);
    assert Prop(body, "message") == Obj(map["toString" := Num(1)]);
  }

  /** A 404 whose body carries a message, and one whose message is empty. */
  lemma FailureMessageExample()
    ensures Efetch(Resolved(404, Obj(map["message" := Str("Not found")]))) ==
              Err(Error("Request failed with status 404: Not found"))
    ensures Efetch(Resolved(404, Obj(map["message" := Str("")]))) ==
              Err(Error("Request failed with status 404: No detail"))
  {
    NotFoundMessage();
    EmptyMessage();
    assert Prop(Obj(map["message" := Str("Not found")]), "message") == Str("Not found");
    assert Prop(Obj(map["message" := Str("")]), "message") == Str("");
  }

  lemma StatusText404()
    ensures IntText(404) == "404"
  {
    assert NatText(4) == "4";
    assert NatText(40) == "40";
  }

  lemma NotFoundMessage()
    ensures FailureMessage(404, Str("Not found")) == Ok("Request failed with status 404: Not found")
  {
    StatusText404();
    assert TemplateText(Str("Not found")) == Ok("Not found");
    assert FailurePrefix + "404" + ": " + "Not found" == "Request failed with status 404: Not found";
  }

  lemma EmptyMessage()
    ensures FailureMessage(404, Str("")) == Ok("Request failed with status 404: No detail")
  {
    StatusText404();
    assert FailurePrefix + "404" + ": " + NoDetail == "Request failed with status 404: No detail";
  }

  /** Distinct pages or limits are requested at distinct URLs. */
  lemma ListUrlInjective(p1: nat, l1: nat, p2: nat, l2: nat)
    requires ListUrl(p1, l1) == ListUrl(p2, l2)
    ensures p1 == p2 && l1 == l2
  {
    ListUrlShape(p1, l1);
    ListUrlShape(p2, l2);
    CancelPrefix(BaseUrl + "?page=", NatText(p1) + ['&'] + ("limit=" + NatText(l1)),
                 NatText(p2) + ['&'] + ("limit=" + NatText(l2)));
    SplitAtSeparator(NatText(p1), "limit=" + NatText(l1), NatText(p2), "limit=" + NatText(l2), '&');
    CancelPrefix("limit=", NatText(l1), NatText(l2));
    ParseNatText(p1);
    ParseNatText(p2);
    ParseNatText(l1);
    ParseNatText(l2);
  }

  lemma ListUrlShape(page: nat, limit: nat)
    ensures ListUrl(page, limit) == (BaseUrl + "?page=") + (NatText(page) + ['&'] + ("limit=" + NatText(limit)))
  {
  }

  /** A search URL determines its page, its limit and the encoded query. */
  lemma SearchUrlInjective(p1: nat, l1: nat, q1: string, p2: nat, l2: nat, q2: string)
    requires SearchUrl(p1, l1, q1) == SearchUrl(p2, l2, q2)
    ensures p1 == p2 && l1 == l2 && q1 == q2
  {
    var t1 := NatText(l1) + ['&'] + ("q=" + q1);
    var t2 := NatText(l2) + ['&'] + ("q=" + q2);
    SearchUrlShape(p1, l1, q1);
    SearchUrlShape(p2, l2, q2);
    CancelPrefix(BaseUrl + "/search?page=", NatText(p1) + ['&'] + ("limit=" + t1), NatText(p2) + ['&'] + ("limit=" + t2));
    SplitAtSeparator(NatText(p1), "limit=" + t1, NatText(p2), "limit=" + t2, '&');
    CancelPrefix("limit=", t1, t2);
    SplitAtSeparator(NatText(l1), "q=" + q1, NatText(l2), "q=" + q2, '&');
    CancelPrefix("q=", q1, q2);
    ParseNatText(p1);
    ParseNatText(p2);
    ParseNatText(l1);
    ParseNatText(l2);
  }

  lemma SearchUrlShape(page: nat, limit: nat, query: string)
    ensures SearchUrl(page, limit, query) ==
              (BaseUrl + "/search?page=") + (NatText(page) + ['&'] + ("limit=" + (NatText(limit) + ['&'] + ("q=" + query))))
  {
  }

  /** Listing and searching never hit the same URL, and listing never hits a
      single contact's URL. */
  lemma ListUrlDistinctFromOthers(page: nat, limit: nat, p: nat, l: nat, query: string, id: string)
    ensures ListUrl(page, limit) != SearchUrl(p, l, query)
    ensures ListUrl(page, limit) != ContactUrl(id)
  {
    var n := |BaseUrl|;
    assert ListUrl(page, limit)[n] == '?';
    assert SearchUrl(p, l, query)[n] == '/';
    assert ContactUrl(id)[n] == '/';
  }

  /** A term that is not a string, or is only white space, makes no request:
      the outcome does not depend on how a call would have settled. */
  lemma BlankSearchMakesNoRequest(env: Env, page: nat, limit: Option<nat>, term: Value, r1: Reply, r2: Reply)
    requires !term.Str? || AllWhite(term.s)
    ensures SearchContacts(env, page, limit, term, r1) == Call(None, Ok(EmptyPage))
    ensures SearchContacts(env, page, limit, term, r1) == SearchContacts(env, page, limit, term, r2)
  {
  }

  /** White space around a term does not change the request or the outcome. */
  lemma SearchIgnoresPadding(env: Env, page: nat, limit: Option<nat>, w1: string, term: string, w2: string, reply: Reply)
    requires AllWhite(w1) && AllWhite(w2)
    ensures SearchContacts(env, page, limit, Str(w1 + term + w2), reply) == SearchContacts(env, page, limit, Str(term), reply)
  {
    TrimPadding(w1, term, w2);
    SearchDependsOnTrim(env, page, limit, w1 + term + w2, term, reply);
  }

  /** A string term passes the guard exactly when its trimmed form is not empty. */
  lemma SearchableIffTrimmed(term: string)
    ensures IsSearchable(Str(term)) <==> Trim(term) != ""
  {
    assert Falsy(Str(term)) ==> |Trim(term)| == 0;
  }

  /** Two string terms that trim alike make the same search. */
  lemma SearchDependsOnTrim(env: Env, page: nat, limit: Option<nat>, t1: string, t2: string, reply: Reply)
    requires Trim(t1) == Trim(t2)
    ensures SearchContacts(env, page, limit, Str(t1), reply) == SearchContacts(env, page, limit, Str(t2), reply)
  {
    SearchableIffTrimmed(t1);
    SearchableIffTrimmed(t2);
  }

  /** A search that is made shapes its payload exactly as listing does. */
  lemma SearchShapesLikeList(env: Env, page: nat, limit: Option<nat>, term: Value, reply: Reply)
    requires term.Str? && !AllWhite(term.s)
    ensures SearchContacts(env, page, limit, term, reply).result == FetchContacts(env, page, limit, reply).result
  {
  }

  /** On a 2xx reply with a body, listing fails only when the payload holds
      a contact array with a null or undefined element; everything else
      malformed becomes the empty page. */
  lemma ListFailsOnlyOnMissingElement(env: Env, page: nat, limit: Option<nat>, reply: Reply)
    requires reply.Resolved? && IsSuccess(reply.status) && !Nullish(reply.data)
    ensures var data := Prop(reply.data, "data");
            var c := FetchContacts(env, page, limit, reply);
            && (!HasContactArray(data) ==> c.result == Ok(EmptyPage))
            && (c.result.Err? <==>
                  HasContactArray(data) &&
                  exists i :: 0 <= i < |Prop(data, "contact").elems| && Nullish(Prop(data, "contact").elems[i]))
  {
  }

  /** With a truthy placeholder, no contact that listing or searching
      returns has a falsy avatar, and no other property is touched. */
  lemma ListedAvatarsTruthy(defaultAvatar: Value, data: Value, i: int, k: string)
    requires Truthy(defaultAvatar)
    requires NormalizePage(defaultAvatar, data).Ok?
    requires 0 <= i < |NormalizePage(defaultAvatar, data).value.contact|
    ensures Truthy(Prop(NormalizePage(defaultAvatar, data).value.contact[i], "avatar"))
    ensures k != "avatar" ==>
              Prop(NormalizePage(defaultAvatar, data).value.contact[i], k) == Prop(Prop(data, "contact").elems[i], k)
  {
    var contacts := Prop(data, "contact").elems;
    assert HasContactArray(data);
    assert NormalizePage(defaultAvatar, data).value.contact[i] == ListAvatar(defaultAvatar, contacts[i]);
  }

  /** The two reads default avatars differently: `||` on the list path and
      `??` on the single-contact path give different avatars exactly when
      the stored avatar is falsy but neither null nor undefined
      (an empty string, `false` or `0`). */
  lemma AvatarDefaultingDiffers(defaultAvatar: Value, contact: Value)
    requires Truthy(defaultAvatar)
    ensures var avatar := Prop(contact, "avatar");
            (Prop(ListAvatar(defaultAvatar, contact), "avatar") != Prop(SingleAvatar(defaultAvatar, contact), "avatar"))
              <==> Falsy(avatar) && !Nullish(avatar)
  {
  }

  /** A contact stored with an empty-string avatar: listing shows the
      placeholder, reading it alone keeps the empty string. */
  lemma EmptyAvatarExample(env: Env)
    requires Truthy(env.defaultAvatar)
    ensures var stored := Obj(map["id" := Num(1), "avatar" := Str("")]);
            var listReply := Resolved(200, Obj(map["data" := Obj(map["contact" := Arr([stored])])]));
            var oneReply := Resolved(200, Obj(map["data" := Obj(map["contact" := stored])]));
            && FetchContacts(env, 1, None, listReply).result ==
                 Ok(Page([Obj(map["id" := Num(1), "avatar" := env.defaultAvatar])], LastPageOne))
            && FetchContact(env, "1", oneReply).result == Ok(stored)
  {
    EmptyAvatarListExample(env);
    EmptyAvatarSingleExample(env);
  }

  lemma EmptyAvatarListExample(env: Env)
    requires Truthy(env.defaultAvatar)
    ensures var stored := Obj(map["id" := Num(1), "avatar" := Str("")]);
            var listReply := Resolved(200, Obj(map["data" := Obj(map["contact" := Arr([stored])])]));
            FetchContacts(env, 1, None, listReply).result ==
              Ok(Page([Obj(map["id" := Num(1), "avatar" := env.defaultAvatar])], LastPageOne))
  {
    var def := env.defaultAvatar;
    var stored := Obj(map["id" := Num(1), "avatar" := Str("")]);
    var listed := Obj(map["id" := Num(1), "avatar" := def]);
    var listData := Obj(map["contact" := Arr([stored])]);
    EmptyAvatarListed(def);
    MapOne(def, stored);
    assert Prop(listData, "contact") == Arr([stored]);
    assert Prop(listData, "metadata") == Undefined;
    assert NormalizePage(def, listData) == Ok(Page([listed], LastPageOne));
    assert Efetch(Resolved(200, Obj(map["data" := listData]))) == Ok(listData);
  }

  lemma EmptyAvatarSingleExample(env: Env)
    ensures var stored := Obj(map["id" := Num(1), "avatar" := Str("")]);
            var oneReply := Resolved(200, Obj(map["data" := Obj(map["contact" := stored])]));
            FetchContact(env, "1", oneReply).result == Ok(stored)
  {
    var stored := Obj(map["id" := Num(1), "avatar" := Str("")]);
    var oneData := Obj(map["contact" := stored]);
    EmptyAvatarKept(env.defaultAvatar);
    assert Prop(oneData, "contact") == stored;
    assert Efetch(Resolved(200, Obj(map["data" := oneData]))) == Ok(oneData);
  }

  lemma EmptyAvatarListed(def: Value)
    requires Truthy(def)
    ensures ListAvatar(def, Obj(map["id" := Num(1), "avatar" := Str("")])) ==
              Obj(map["id" := Num(1), "avatar" := def])
  {
    var stored := Obj(map["id" := Num(1), "avatar" := Str("")]);
    assert Prop(stored, "avatar") == Str("");
    assert Props(stored)["avatar" := def] == map["id" := Num(1), "avatar" := def];
  }

  lemma EmptyAvatarKept(def: Value)
    ensures var stored := Obj(map["id" := Num(1), "avatar" := Str("")]);
            SingleAvatar(def, stored) == stored
  {
    var stored := Obj(map["id" := Num(1), "avatar" := Str("")]);
    assert Prop(stored, "avatar") == Str("");
    assert Props(stored)["avatar" := Str("")] == Props(stored);
  }

  /** Mapping a one-element list that holds a contact. */
  lemma MapOne(def: Value, contact: Value)
    requires !Nullish(contact)
    ensures MapContacts(def, [contact]) == Ok([ListAvatar(def, contact)])
  {
    var r := MapContacts(def, [contact]);
    assert r.Ok? && |r.value| == 1 && r.value[0] == ListAvatar(def, contact);
    assert r.value == [ListAvatar(def, contact)];
  }

  /** Listing page 1 against a server that returns one contact without an
      avatar and three pages of metadata. */
  lemma ListExample(env: Env)
    ensures var reply := Resolved(200, Obj(map["data" := Obj(map[
              "contact" := Arr([Obj(map["id" := Num(1), "name" := Str("A")])]),
              "metadata" := Obj(map["lastPage" := Num(3)])])]));
            FetchContacts(env, 1, Some(10), reply) ==
              Call(Some(GetRequest("/api/v1/contacts?page=1&limit=10")),
                   Ok(Page([Obj(map["id" := Num(1), "name" := Str("A"), "avatar" := env.defaultAvatar])],
                           Obj(map["lastPage" := Num(3)]))))
  {
    var def := env.defaultAvatar;
    var stored := Obj(map["id" := Num(1), "name" := Str("A")]);
    var listed := Obj(map["id" := Num(1), "name" := Str("A"), "avatar" := def]);
    var meta := Obj(map["lastPage" := Num(3)]);
    var data := Obj(map["contact" := Arr([stored]), "metadata" := meta]);
    FirstPageUrl();
    NamedContactListed(def);
    MapOne(def, stored);
    assert Prop(data, "contact") == Arr([stored]);
    assert Prop(data, "metadata") == meta;
    assert NormalizePage(def, data) == Ok(Page([listed], meta));
    assert Efetch(Resolved(200, Obj(map["data" := data]))) == Ok(data);
  }

  lemma FirstPageUrl()
    ensures ListUrl(1, LimitOrDefault(Some(10))) == "/api/v1/contacts?page=1&limit=10"
  {
    assert NatText(1) == "1";
    assert NatText(10) == "10";
  }

  lemma NamedContactListed(def: Value)
    ensures ListAvatar(def, Obj(map["id" := Num(1), "name" := Str("A")])) ==
              Obj(map["id" := Num(1), "name" := Str("A"), "avatar" := def])
  {
    var stored := Obj(map["id" := Num(1), "name" := Str("A")]);
    assert Prop(stored, "avatar") == Undefined;
    assert Props(stored)["avatar" := def] == map["id" := Num(1), "name" := Str("A"), "avatar" := def];
  }

  /** Create, update and the two deletes surface every failure: a rejected
      call re-throws the same error, and a non-2xx status never resolves. */
  lemma WritesSurfaceFailures(id: string, form: Value, reply: Reply)
    requires !(reply.Resolved? && IsSuccess(reply.status))
    ensures CreateContact(form, reply).result.Err?
    ensures UpdateContact(id, form, reply).result.Err?
    ensures DeleteContact(id, reply).result.Err?
    ensures DeleteAllContacts(reply).result.Err?
    ensures reply.Rejected? ==>
              && CreateContact(form, reply).result == Err(reply.error)
              && UpdateContact(id, form, reply).result == Err(reply.error)
              && DeleteContact(id, reply).result == Err(reply.error)
              && DeleteAllContacts(reply).result == Err(reply.error)
  {
  }
}
