/**
 * The forwarder's handling of one push event from the messenger: keep only new
 * messages (opcode 128) from the configured chat, name the sender through the
 * contacts cache, apply the optional sender-id and sender-name filters, and build
 * the Telegram header for the message text.
 */
module Forwarder {
  import opened Wrappers
  import opened PyText
  import opened PyJson
  import opened Protocol
  import opened Format

  /** Opcode of a new-message push. */
  const NEW_MESSAGE := 128

  /** What `max_api.get_contact_details([user_id])` did: raised, or returned a value. */
  datatype Lookup = LookupRaises | Returned(details: Json)

  /**
   * `f"{first_name} {last_name}".strip()` of the first contact returned, or `None`
   * where `get_user_name` falls back (nothing returned, or an exception caught).
   */
  function ContactName(lookup: Lookup): (r: Option<string>)
    ensures r.Some? ==> lookup.Returned? && lookup.details.JArr? && lookup.details.items != []
                        && lookup.details.items[0].JObj?
    ensures r.Some? ==> r.value == [] || (!IsSpace(r.value[0]) && !IsSpace(r.value[|r.value| - 1]))
  {
    match lookup
    case LookupRaises => None
    case Returned(details) =>
      if !Truthy(details) || !(details.JArr? || details.JStr? || details.JObj?) then None
      else
        match First(details)
        case None => None
        case Some(user) =>
          match (Get(user, "first_name", JStr("")), Get(user, "last_name", JStr("")))
          case (Some(f), Some(l)) =>
            (match (PyStr(f), PyStr(l))
             case (Some(a), Some(b)) => StripIsTrimmedSlice(a + " " + b); Some(Strip(a + " " + b))
             case _ => None)
          case _ => None
  }

  /**
   * `get_contact_details` hands back the whole response object, a dict, and a dict
   * decoded from JSON has no key `0`: such a lookup never yields a name.
   */
  lemma WholeResponseGivesNoName(fields: map<string, Json>)
    ensures ContactName(Returned(JObj(fields))).None?
  {
  }

  /** `f"User {user_id}"`. */
  function FallbackName(userId: Json): (r: string)
    requires Hashable(userId)
    ensures r != []
  {
    match userId
    case JNull => "User None"
    case JBool(b) => "User " + (if b then "True" else "False")
    case JInt(n) => "User " + IntToString(n)
    case JStr(s) => "User " + s
  }

  /**
   * `get_user_name`: the name (`None` for the `TypeError` an unhashable id raises
   * on the cache lookup), the cache afterwards, and whether the remote lookup ran.
   */
  function NameLookup(cache: map<Json, string>, userId: Json, lookup: Lookup)
    : (r: (Option<string>, map<Json, string>, bool))
    ensures r.0.None? <==> !Hashable(userId)
    ensures r.0.None? ==> r.1 == cache && !r.2
    ensures cache.Keys <= r.1.Keys && forall k :: k in cache ==> r.1[k] == cache[k]
    ensures r.1.Keys <= cache.Keys + (if Hashable(userId) then {KeyOf(userId)} else {})
    ensures r.2 <==> Hashable(userId) && KeyOf(userId) !in cache
    ensures Hashable(userId) && KeyOf(userId) in r.1 ==> r.0 == Some(r.1[KeyOf(userId)])
    ensures Hashable(userId) && KeyOf(userId) !in r.1 ==> r.0 == Some(FallbackName(userId))
    ensures Hashable(userId) && KeyOf(userId) !in cache && ContactName(lookup).Some? ==>
      var n := ContactName(lookup).value;
      var stored := if n == "" then FallbackName(userId) else n;
      r == (Some(stored), cache[KeyOf(userId) := stored], true)
    ensures Hashable(userId) && KeyOf(userId) !in cache && ContactName(lookup).None? ==>
      r == (Some(FallbackName(userId)), cache, true)
  {
    if !Hashable(userId) then (None, cache, false)
    else
      var key := KeyOf(userId);
      if key in cache then (Some(cache[key]), cache, false)
      else
        match ContactName(lookup)
        case Some(n) =>
          var stored := if n == "" then FallbackName(userId) else n;
          (Some(stored), cache[key := stored], true)
        case None => (Some(FallbackName(userId)), cache, true)
  }

  /** Once a lookup has found a name, asking again is answered from the cache with the same name. */
  lemma FoundNameIsCached(cache: map<Json, string>, userId: Json, lookup: Lookup, later: Lookup)
    requires Hashable(userId) && ContactName(lookup).Some?
    ensures var (name, cache2, _) := NameLookup(cache, userId, lookup);
            NameLookup(cache2, userId, later) == (name, cache2, false)
  {
  }

  /** A failed lookup is not remembered: the next call asks the remote side again. */
  lemma FallbackIsNotCached(cache: map<Json, string>, userId: Json, lookup: Lookup)
    requires Hashable(userId) && KeyOf(userId) !in cache && ContactName(lookup).None?
    ensures NameLookup(cache, userId, lookup) == (Some(FallbackName(userId)), cache, true)
  {
  }

  /** The fields of a new-message event that the filters read. */
  datatype EventView =
    | NotNewMessage
    | Broken      // a `.get` on a non-dict or `abs` of a non-number raised
    | NewMessage(chatId: nat, sender: Json, text: Json, time: Json, message: map<string, Json>)

  /** The reads at the top of `on_max_event`, in their order. */
  function ReadEvent(event: Frame): (v: EventView)
    ensures v.NotNewMessage? <==> NumberValue(event.opcode) != Some(NEW_MESSAGE)
  {
    if NumberValue(event.opcode) != Some(NEW_MESSAGE) then NotNewMessage
    else
      var payload := event.payload.GetOr(JObj(map[]));
      match Get(payload, "message", JObj(map[]))
      case None => Broken
      case Some(message) =>
        match NumberValue(Get(payload, "chatId", JInt(0)).value)
        case None => Broken
        case Some(c) =>
          if !message.JObj? then Broken
          else
            NewMessage(if c < 0 then -c else c,
                       Get(message, "sender", JInt(0)).value,
                       Get(message, "text", JStr("")).value,
                       Get(message, "time", JInt(0)).value,
                       message.fields)
  }

  /** The outcome of the `TARGET_USER_ID` filter. */
  datatype SenderCheck = NoTarget | BadTarget | Matches | Mismatch

  /** `if TARGET_USER_ID: ... int(TARGET_USER_ID) ... from_id != target_id`. */
  function CheckSender(targetUserId: string, sender: Json): (r: SenderCheck)
    ensures r.Mismatch? <==> targetUserId != "" && ParseInt(targetUserId).Some?
                             && NumberValue(sender) != ParseInt(targetUserId)
  {
    if targetUserId == "" then NoTarget
    else
      match ParseInt(targetUserId)
      case None => BadTarget
      case Some(t) => if NumberValue(sender) == Some(t) then Matches else Mismatch
  }

  /** `not TARGET_USER_NAME or TARGET_USER_NAME in sender_name.lower()`. */
  function NamePasses(targetUserName: string, senderName: string): (r: bool)
    ensures r <==> targetUserName == "" || exists i :: OccursAt(Lower(senderName), targetUserName, i)
  {
    ContainsIff(Lower(senderName), targetUserName);
    targetUserName == "" || Contains(Lower(senderName), targetUserName)
  }

  /** Why an event is not forwarded. */
  datatype Drop = Ignored | Failed | OtherChat | OtherSender | OtherName

  datatype Decision =
    | Dropped(why: Drop)
    | Forward(senderName: string, header: Option<string>, message: map<string, Json>)
    | TextNotModelled   // a non-empty list as text: `str()` of a list is outside the model

  /** A text the logging slice and the header accept: a string, or anything falsy. */
  predicate TextReadable(text: Json) {
    !Truthy(text) || text.JStr? || text.JArr?
  }

  /**
   * `datetime.fromtimestamp(msg_time / 1000) if msg_time else datetime.now()`: the
   * clock gives `now`, and `converted` is what the conversion of a number gives
   * (`None` when it raises for a value out of the platform's range). A truthy
   * `time` that is not a number makes the division raise.
   */
  function Timestamp(time: Json, now: DateTime, converted: Option<DateTime>): (r: Option<DateTime>)
    ensures !Truthy(time) ==> r == Some(now)
    ensures Truthy(time) && NumberValue(time).None? ==> r.None?
    ensures Truthy(time) && NumberValue(time).Some? ==> r == converted
  {
    if !Truthy(time) then Some(now)
    else if NumberValue(time).None? then None
    else converted
  }

  /** What `on_max_event` does once the sender has been named. */
  function Decide(view: EventView, maxChatId: int, targetUserId: string, targetUserName: string,
                  senderName: Option<string>, now: DateTime, converted: Option<DateTime>): (d: Decision)
    requires ValidDateTime(now) && (converted.Some? ==> ValidDateTime(converted.value))
    ensures d.Forward? <==>
      && view.NewMessage? && view.chatId == maxChatId && senderName.Some?
      && !CheckSender(targetUserId, view.sender).Mismatch?
      && NamePasses(targetUserName, senderName.value)
      && Timestamp(view.time, now, converted).Some?
      && (!Truthy(view.text) || view.text.JStr?)
    ensures d.Forward? ==>
      var when := Timestamp(view.time, now, converted).value;
      && d.senderName == senderName.value && d.message == view.message
      && (d.header.Some? <==> Truthy(view.text))
      && (d.header.Some? ==> d.header.value == FormatMessage(senderName.value, view.text.s, when))
    ensures d == Dropped(OtherChat) <==> view.NewMessage? && view.chatId != maxChatId
    ensures (&& view.NewMessage? && view.chatId == maxChatId && senderName.Some?
             && !CheckSender(targetUserId, view.sender).Mismatch?
             && NamePasses(targetUserName, senderName.value)
             && Timestamp(view.time, now, converted).None?) ==> d == Dropped(Failed)
  {
    match view
    case NotNewMessage => Dropped(Ignored)
    case Broken => Dropped(Failed)
    case NewMessage(chatId, sender, text, time, message) =>
      if chatId != maxChatId then Dropped(OtherChat)
      else if senderName.None? then Dropped(Failed)
      else if CheckSender(targetUserId, sender).Mismatch? then Dropped(OtherSender)
      else if !NamePasses(targetUserName, senderName.value) then Dropped(OtherName)
      else
        match Timestamp(time, now, converted)
        case None => Dropped(Failed)
        case Some(when) =>
          if !TextReadable(text) then Dropped(Failed)
          else if Truthy(text) && text.JArr? then TextNotModelled
          else Forward(senderName.value, if Truthy(text) then Some(FormatMessage(senderName.value, text.s, when)) else None, message)
  }

  /** The forwarder's module-level state: its settings and `contacts_cache`. */
  class Forwarder {
    /** `contacts_cache`, keyed as Python hashes: `True` and `1` are one key. */
    var contactsCache: map<Json, string>
    const maxChatId: int
    /** `TARGET_USER_ID`, stripped. */
    const targetUserId: string
    /** `TARGET_USER_NAME`, stripped and lower-cased. */
    const targetUserName: string

    ghost predicate Valid()
      reads this
    {
      forall k :: k in contactsCache ==> Hashable(k) && KeyOf(k) == k
    }

    /** The settings as read at start-up; the cache starts as a copy of `USER_NAMES`. */
    constructor (userNames: map<int, string>, maxChatId: int, targetUserIdSetting: string,
                 targetUserNameSetting: string)
      ensures Valid()
      ensures contactsCache == map id | id in userNames :: JInt(id) := userNames[id]
      ensures this.maxChatId == maxChatId
      ensures targetUserId == Strip(targetUserIdSetting)
      ensures targetUserName == Lower(Strip(targetUserNameSetting))
    {
      contactsCache := map id | id in userNames :: JInt(id) := userNames[id];
      this.maxChatId := maxChatId;
      targetUserId := Strip(targetUserIdSetting);
      targetUserName := Lower(Strip(targetUserNameSetting));
    }

    /** `get_user_name`: a cache hit makes no remote call; a found name is stored. */
    method GetUserName(userId: Json, lookup: Lookup) returns (name: Option<string>, remoteCalled: bool)
      requires Valid()
      modifies this`contactsCache
      ensures Valid()
      ensures (name, contactsCache, remoteCalled) == NameLookup(old(contactsCache), userId, lookup)
    {
      if !Hashable(userId) {
        return None, false;
      }
      var key := KeyOf(userId);
      if key in contactsCache {
        return Some(contactsCache[key]), false;
      }
      remoteCalled := true;
      var found := ContactName(lookup);
      if found.Some? {
        var stored := if found.value == "" then FallbackName(userId) else found.value;
        contactsCache := contactsCache[key := stored];
        return Some(stored), true;
      }
      name := Some(FallbackName(userId));
    }

    /**
     * `on_max_event` up to building the header. The sender is named (and possibly
     * cached) before the id and name filters run.
     */
    method OnMaxEvent(event: Frame, lookup: Lookup, now: DateTime, converted: Option<DateTime>)
      returns (d: Decision)
      requires Valid() && ValidDateTime(now) && (converted.Some? ==> ValidDateTime(converted.value))
      modifies this`contactsCache
      ensures Valid()
      ensures var view := ReadEvent(event);
        if view.NewMessage? && view.chatId == maxChatId then
          var (name, cache, _) := NameLookup(old(contactsCache), view.sender, lookup);
          contactsCache == cache && d == Decide(view, maxChatId, targetUserId, targetUserName, name, now, converted)
        else
          contactsCache == old(contactsCache) && d == Decide(view, maxChatId, targetUserId, targetUserName, None, now, converted)
    {
      var view := ReadEvent(event);
      if view.NotNewMessage? {
        return Dropped(Ignored);
      }
      if view.Broken? {
        return Dropped(Failed);
      }
      if view.chatId != maxChatId {
        return Dropped(OtherChat);
      }
      var senderName, _ := GetUserName(view.sender, lookup);
      if senderName.None? {
        return Dropped(Failed);
      }
      if CheckSender(targetUserId, view.sender).Mismatch? {
        return Dropped(OtherSender);
      }
      if !NamePasses(targetUserName, senderName.value) {
        return Dropped(OtherName);
      }
      var timestamp := Timestamp(view.time, now, converted);
      if timestamp.None? {
        return Dropped(Failed);
      }
      var when := timestamp.value;
      var text := view.text;
      if Truthy(text) && !text.JStr? {
        return if text.JArr? then TextNotModelled else Dropped(Failed);
      }
      var header := if Truthy(text) then Some(FormatMessage(senderName.value, text.s, when)) else None;
      d := Forward(senderName.value, header, view.message);
    }
  }
}
