/**
 * Post-processing of the authenticate response: reject an error payload, read the
 * user's contact from the profile, and build the chats map keyed by `str(id)` with
 * `id` removed from every value.
 */
module Auth {
  import opened Wrappers
  import opened PyJson
  import opened Protocol

  /** The exceptions the post-processing can raise, by cause. */
  datatype AuthError =
    | PayloadNotADict          // `.get` on a payload that is not a dict
    | Rejected(error: Json)    // the `ValueError` for a truthy `error`
    | MissingProfile           // `payload['profile']['contact']['names'][0]['name']` raised
    | ChatsNotIterable         // iterating `payload['chats']` raised
    | ChatNotADict             // `.get` on a chat item that is not a dict
    | ChatWithoutId            // `del new_item['id']` raised `KeyError`
    | IdNotModelled            // `str()` of an array or object id

  /** A chat's fields after `del new_item['id']`. */
  type Chat = map<string, Json>

  /**
   * `payload['profile']['contact']['names'][0]['name']`, which the success log line
   * evaluates before the user is stored; `None` where a subscript raises.
   */
  function ContactNameOf(p: Json): (r: Option<Json>)
    ensures r.Some? ==> && Subscript(p, "profile").Some?
                        && Subscript(Subscript(p, "profile").value, "contact").Some?
    ensures r.Some? ==> var contact := Subscript(Subscript(p, "profile").value, "contact").value;
                        && Subscript(contact, "names").Some?
                        && First(Subscript(contact, "names").value).Some?
                        && Subscript(First(Subscript(contact, "names").value).value, "name") == r
  {
    match Subscript(p, "profile")
    case None => None
    case Some(profile) =>
      match Subscript(profile, "contact")
      case None => None
      case Some(contact) =>
        match Subscript(contact, "names")
        case None => None
        case Some(names) =>
          match First(names)
          case None => None
          case Some(first) => Subscript(first, "name")
  }

  /**
   * The payload as a dict, checked for `error`, and the user's contact, which
   * must carry `names[0]['name']`.
   */
  function ProfileOf(response: Frame): (r: Result<(map<string, Json>, Json), AuthError>)
    ensures var p := response.payload.GetOr(JObj(map[]));
      r.Ok? <==> p.JObj? && !("error" in p.fields && Truthy(p.fields["error"])) && ContactNameOf(p).Some?
    ensures r.Ok? ==> var p := response.payload.GetOr(JObj(map[]));
      && p == JObj(r.value.0)
      && Subscript(p, "profile").Some?
      && Subscript(Subscript(p, "profile").value, "contact") == Some(r.value.1)
      && Subscript(r.value.1, "names").Some?
      && First(Subscript(r.value.1, "names").value).Some?
      && Subscript(First(Subscript(r.value.1, "names").value).value, "name").Some?
    ensures var p := response.payload.GetOr(JObj(map[]));
      p.JObj? && "error" in p.fields && Truthy(p.fields["error"]) ==> r == Err(Rejected(p.fields["error"]))
    ensures !response.payload.GetOr(JObj(map[])).JObj? ==> r == Err(PayloadNotADict)
    ensures r.Err? && r.error.MissingProfile? <==>
      var p := response.payload.GetOr(JObj(map[]));
      p.JObj? && !("error" in p.fields && Truthy(p.fields["error"])) && ContactNameOf(p).None?
  {
    var p := response.payload.GetOr(JObj(map[]));
    if !p.JObj? then Err(PayloadNotADict)
    else if "error" in p.fields && Truthy(p.fields["error"]) then Err(Rejected(p.fields["error"]))
    else if ContactNameOf(p).None? then Err(MissingProfile)
    else Ok((p.fields, Subscript(Subscript(p, "profile").value, "contact").value))
  }

  /**
   * The items `for item in payload['chats']` visits; no `chats` key gives no items.
   * A dict or string yields string items, so only an empty one gets through.
   */
  function ChatItems(payload: map<string, Json>): (r: Result<seq<Json>, AuthError>)
    ensures "chats" !in payload ==> r == Ok([])
    ensures "chats" in payload && payload["chats"].JArr? ==> r == Ok(payload["chats"].items)
  {
    if "chats" !in payload then Ok([])
    else
      match payload["chats"]
      case JArr(xs) => Ok(xs)
      case JObj(m) => if m == map[] then Ok([]) else Err(ChatNotADict)
      case JStr(s) => if s == "" then Ok([]) else Err(ChatNotADict)
      case _ => Err(ChatsNotIterable)
  }

  /** One chat item: its key `str(item.get('id'))` and its fields without `id`. */
  function ChatEntry(item: Json): (r: Result<(string, Chat), AuthError>)
    ensures r.Ok? <==> item.JObj? && "id" in item.fields && PyStr(item.fields["id"]).Some?
    ensures r.Ok? ==> && r.value.0 == PyStr(item.fields["id"]).value
                      && "id" !in r.value.1
                      && r.value.1 == item.fields - {"id"}
  {
    match item
    case JObj(fields) =>
      if "id" !in fields then Err(ChatWithoutId)
      else
        (match PyStr(fields["id"])
         case None => Err(IdNotModelled)
         case Some(key) => Ok((key, fields - {"id"})))
    case _ => Err(ChatNotADict)
  }

  /** The chats dict after the loop has visited `items`, or the first item's failure. */
  function ChatsOf(items: seq<Json>): Result<map<string, Chat>, AuthError>
    decreases |items|
  {
    if items == [] then Ok(map[])
    else
      match ChatsOf(items[..|items| - 1])
      case Err(e) => Err(e)
      case Ok(m) =>
        match ChatEntry(items[|items| - 1])
        case Err(e) => Err(e)
        case Ok(kv) => Ok(m[kv.0 := kv.1])
  }

  /** The loop of the authenticate step that builds the chats dict. */
  method BuildChats(items: seq<Json>) returns (r: Result<map<string, Chat>, AuthError>)
    ensures r == ChatsOf(items)
  {
    var chats: map<string, Chat> := map[];
    var i := 0;
    while i < |items|
      invariant 0 <= i <= |items|
      invariant ChatsOf(items[..i]) == Ok(chats)
    {
      assert items[..i + 1][..i] == items[..i];
      match ChatEntry(items[i]) {
        case Err(e) =>
          ChatsOfFailed(items, i + 1);
          return Err(e);
        case Ok(kv) =>
          chats := chats[kv.0 := kv.1];
      }
      i := i + 1;
    }
    assert items[..i] == items;
    r := Ok(chats);
  }

  /** A failure among the first `n` items is the loop's failure, whatever follows. */
  lemma {:induction false} ChatsOfFailed(items: seq<Json>, n: nat)
    requires 1 <= n <= |items|
    requires ChatsOf(items[..n]).Err?
    ensures ChatsOf(items) == ChatsOf(items[..n])
    decreases |items|
  {
    if n < |items| {
      assert items[..|items| - 1][..n] == items[..n];
      ChatsOfFailed(items[..|items| - 1], n);
    } else {
      assert items[..n] == items;
    }
  }

  /** The loop completes exactly when every item is a dict with a modelled `id`. */
  lemma {:induction false} ChatsOfOk(items: seq<Json>)
    ensures ChatsOf(items).Ok? <==> forall i :: 0 <= i < |items| ==> ChatEntry(items[i]).Ok?
    decreases |items|
  {
    if items != [] {
      var init := items[..|items| - 1];
      ChatsOfOk(init);
      assert forall i :: 0 <= i < |init| ==> init[i] == items[i];
    }
  }

  /**
   * The chats dict's keys are exactly the items' `str(id)`, and no value keeps
   * an `id` field.
   */
  lemma {:induction false} ChatsOfKeys(items: seq<Json>)
    requires ChatsOf(items).Ok?
    ensures forall k :: k in ChatsOf(items).value ==> "id" !in ChatsOf(items).value[k]
    ensures forall k :: k in ChatsOf(items).value <==>
              exists i :: 0 <= i < |items| && ChatEntry(items[i]).Ok? && ChatEntry(items[i]).value.0 == k
    decreases |items|
  {
    if items != [] {
      var init := items[..|items| - 1];
      ChatsOfKeys(init);
      var last := |items| - 1;
      assert forall i :: 0 <= i < |init| ==> init[i] == items[i];
      var m := ChatsOf(items).value;
      forall k | k in m
        ensures exists i :: 0 <= i < |items| && ChatEntry(items[i]).Ok? && ChatEntry(items[i]).value.0 == k
      {
        if k != ChatEntry(items[last]).value.0 {
          var i :| 0 <= i < |init| && ChatEntry(init[i]).Ok? && ChatEntry(init[i]).value.0 == k;
          assert items[i] == init[i];
        }
      }
    }
  }

  /** A key maps to the item that carried it LAST: a later duplicate id overwrites an earlier one. */
  lemma {:induction false} ChatsOfLastWins(items: seq<Json>, i: nat)
    requires ChatsOf(items).Ok? && i < |items|
    requires forall j :: i < j < |items| ==>
               !(ChatEntry(items[j]).Ok? && ChatEntry(items[i]).Ok?
                 && ChatEntry(items[j]).value.0 == ChatEntry(items[i]).value.0)
    ensures ChatEntry(items[i]).Ok?
    ensures ChatEntry(items[i]).value.0 in ChatsOf(items).value
    ensures ChatsOf(items).value[ChatEntry(items[i]).value.0] == ChatEntry(items[i]).value.1
    decreases |items|
  {
    ChatsOfOk(items);
    var last := |items| - 1;
    if i < last {
      var init := items[..last];
      ChatsOfOk(init);
      assert init[i] == items[i];
      forall j | i < j < |init|
        ensures !(ChatEntry(init[j]).Ok? && ChatEntry(init[i]).Ok?
                  && ChatEntry(init[j]).value.0 == ChatEntry(init[i]).value.0)
      {
        assert init[j] == items[j];
      }
      ChatsOfLastWins(init, i);
    }
  }
}
