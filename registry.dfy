/**
 * The conversation registry of the application shell: the list of
 * conversations, the id of the current one, and the two local-storage
 * keys they are written to.
 */
module Registry {
  import opened Types

  const DefaultTitle: string := "New conversation"

  /** A fresh conversation, from an injected id and clock reading. */
  function FreshConversation(id: Id, now: Timestamp): Conversation
  {
    Conversation(id, DefaultTitle, [], now)
  }

  ghost predicate HasId(cs: seq<Conversation>, id: string)
  {
    exists i :: 0 <= i < |cs| && cs[i].id == id
  }

  /** The position of the first conversation with the given id (`find`). */
  function IndexOf(cs: seq<Conversation>, id: string): (r: Option<nat>)
    ensures r.Some? ==> r.value < |cs| && cs[r.value].id == id
    ensures r.Some? ==> forall j :: 0 <= j < r.value ==> cs[j].id != id
    ensures r.None? <==> !HasId(cs, id)
  {
    if cs == [] then None
    else if cs[0].id == id then Some(0)
    else match IndexOf(cs[1..], id)
      case None =>
        assert forall j :: 1 <= j < |cs| ==> cs[j] == cs[1..][j - 1];
        None
      case Some(k) => Some(k + 1)
  }

  /** The conversation shown: the first entry with the current id, or else
      the first entry, or nothing when the list is empty. */
  function CurrentOf(cs: seq<Conversation>, ptr: Option<Id>): (r: Option<Conversation>)
    ensures r.None? <==> cs == []
    ensures ptr.Some? && HasId(cs, ptr.value) ==>
      exists k :: 0 <= k < |cs| && r == Some(cs[k]) && cs[k].id == ptr.value &&
        forall j :: 0 <= j < k ==> cs[j].id != ptr.value
    ensures !(ptr.Some? && HasId(cs, ptr.value)) && cs != [] ==> r == Some(cs[0])
  {
    var k := if ptr.Some? then IndexOf(cs, ptr.value) else None;
    if k.Some? then Some(cs[k.value])
    else if cs == [] then None
    else Some(cs[0])
  }

  /** `map` that swaps in the updated conversation wherever its id matches. */
  function Replaced(cs: seq<Conversation>, updated: Conversation): (r: seq<Conversation>)
    ensures |r| == |cs|
    ensures forall i :: 0 <= i < |cs| && cs[i].id == updated.id ==> r[i] == updated
    ensures forall i :: 0 <= i < |cs| && cs[i].id != updated.id ==> r[i] == cs[i]
  {
    if cs == [] then []
    else [if cs[0].id == updated.id then updated else cs[0]] + Replaced(cs[1..], updated)
  }

  /** `filter` that drops every conversation with the given id. */
  function Without(cs: seq<Conversation>, id: Id): (r: seq<Conversation>)
    ensures |r| <= |cs|
    ensures forall c :: c in r <==> c in cs && c.id != id
  {
    if cs == [] then []
    else if cs[0].id == id then Without(cs[1..], id)
    else [cs[0]] + Without(cs[1..], id)
  }

  /** Updating leaves every position's id as it was. */
  lemma {:induction false} ReplacedKeepsIds(cs: seq<Conversation>, updated: Conversation, id: string)
    ensures IndexOf(Replaced(cs, updated), id) == IndexOf(cs, id)
    ensures HasId(Replaced(cs, updated), id) <==> HasId(cs, id)
  {
    if cs != [] {
      ReplacedKeepsIds(cs[1..], updated, id);
      assert Replaced(cs, updated)[1..] == Replaced(cs[1..], updated);
    }
  }

  /** An update whose id matches no entry changes nothing. */
  lemma ReplacedNoMatch(cs: seq<Conversation>, updated: Conversation)
    requires !HasId(cs, updated.id)
    ensures Replaced(cs, updated) == cs
  {
  }

  /** Updating the shown conversation makes the update what is shown,
      whether the current id resolves or the first entry stands in for it. */
  lemma CurrentAfterUpdate(cs: seq<Conversation>, ptr: Option<Id>, updated: Conversation)
    requires cs != [] && updated.id == CurrentOf(cs, ptr).value.id
    ensures CurrentOf(Replaced(cs, updated), ptr) == Some(updated)
  {
    if ptr.Some? {
      ReplacedKeepsIds(cs, updated, ptr.value);
    }
  }

  /** Deleting from a concatenation deletes from each part: the survivors keep
      their relative order. */
  lemma {:induction false} WithoutAppend(a: seq<Conversation>, b: seq<Conversation>, id: Id)
    ensures Without(a + b, id) == Without(a, id) + Without(b, id)
  {
    if a == [] {
      assert a + b == b;
    } else {
      assert (a + b)[0] == a[0] && (a + b)[1..] == a[1..] + b;
      WithoutAppend(a[1..], b, id);
    }
  }

  /** Deleting an id that no entry has changes nothing. */
  lemma {:induction false} WithoutNoMatch(cs: seq<Conversation>, id: Id)
    requires !HasId(cs, id)
    ensures Without(cs, id) == cs
  {
    if cs != [] {
      assert forall j :: 1 <= j < |cs| ==> cs[j] == cs[1..][j - 1];
      WithoutNoMatch(cs[1..], id);
    }
  }

  /** The application's conversation state (`conversations` and
      `currentConversationId`) together with the two local-storage keys it
      is persisted to. */
  class ConversationRegistry {
    var conversations: seq<Conversation>
    var currentId: Option<Id>
    /** The `chat_app_conversations` key. */
    var storedConversations: Stored<seq<Conversation>>
    /** The `chat_app_current_conversation` key. */
    var storedCurrentId: Option<string>

    /** Some entry of the list has the current id. */
    ghost predicate CurrentIdResolves()
      reads this
    {
      currentId.Some? && HasId(conversations, currentId.value)
    }

    /** Local storage holds what is in memory. */
    ghost predicate Synced()
      reads this
    {
      storedConversations == Present(conversations) &&
      (currentId.Some? ==> storedCurrentId == Some(currentId.value))
    }

    function Current(): (r: Option<Conversation>)
      reads this
    {
      CurrentOf(conversations, currentId)
    }

    /** Page load: empty state over whatever the two keys hold. */
    constructor (stored: Stored<seq<Conversation>>, storedId: Option<string>)
      ensures conversations == [] && currentId == None
      ensures storedConversations == stored && storedCurrentId == storedId
    {
      conversations := [];
      currentId := None;
      storedConversations := stored;
      storedCurrentId := storedId;
    }

    /** The effect that writes the list, skipped while it is empty. */
    method PersistConversations()
      modifies this`storedConversations
      ensures storedConversations == if conversations != [] then Present(conversations) else old(storedConversations)
    {
      if conversations != [] {
        storedConversations := Present(conversations);
      }
    }

    /** The effect that writes the current id, skipped while it is null. */
    method PersistCurrentId()
      modifies this`storedCurrentId
      ensures storedCurrentId == if currentId.Some? then Some(currentId.value) else old(storedCurrentId)
    {
      if currentId.Some? {
        storedCurrentId := Some(currentId.value);
      }
    }

    /** createInitialConversation: one fresh conversation, selected. */
    method CreateInitial(freshId: Id, now: Timestamp)
      modifies this`conversations, this`currentId
      ensures conversations == [FreshConversation(freshId, now)] && currentId == Some(freshId)
    {
      var c := FreshConversation(freshId, now);
      conversations := [c];
      currentId := Some(c.id);
    }

    /** The mount effect: restore the stored list and current id, or start over
        with one fresh conversation when the list key is missing or does not
        parse. */
    method Bootstrap(freshId: Id, now: Timestamp)
      requires conversations == [] && currentId == None
      modifies this
      ensures old(storedConversations).Present? ==>
        conversations == old(storedConversations).value &&
        currentId == (if old(storedCurrentId).Some? && HasId(conversations, old(storedCurrentId).value)
                      then Some(old(storedCurrentId).value)
                      else if conversations != [] then Some(conversations[0].id)
                      else None)
      ensures !old(storedConversations).Present? ==>
        conversations == [FreshConversation(freshId, now)] && currentId == Some(freshId)
      ensures conversations == [] <==> old(storedConversations) == Present([])
      ensures conversations != [] ==> CurrentIdResolves()
      ensures Synced()
      ensures storedCurrentId == if currentId.Some? then Some(currentId.value) else old(storedCurrentId)
    {
      match storedConversations {
        case Present(list) =>
          conversations := list;
          var k := if storedCurrentId.Some? then IndexOf(list, storedCurrentId.value) else None;
          if k.Some? {
            currentId := Some(list[k.value].id);
          } else if list != [] {
            currentId := Some(list[0].id);
            assert conversations[0].id == currentId.value;
          }
        case _ =>
          CreateInitial(freshId, now);
          assert conversations[0].id == freshId;
      }
      PersistConversations();
      PersistCurrentId();
    }

    /** handleNewConversation: append a fresh conversation and select it. */
    method NewConversation(freshId: Id, now: Timestamp)
      modifies this
      ensures conversations == old(conversations) + [FreshConversation(freshId, now)]
      ensures currentId == Some(freshId) && CurrentIdResolves()
      ensures !HasId(old(conversations), freshId) ==> Current() == Some(FreshConversation(freshId, now))
      ensures old(Synced()) ==> Synced()
      ensures storedConversations == Present(conversations) && storedCurrentId == Some(freshId)
    {
      var c := FreshConversation(freshId, now);
      conversations := conversations + [c];
      currentId := Some(c.id);
      assert conversations[|conversations| - 1] == c;
      PersistConversations();
      PersistCurrentId();
    }

    /** setCurrentConversationId from the sidebar: no existence check. */
    method Select(id: Id)
      modifies this
      ensures conversations == old(conversations) && currentId == Some(id)
      ensures CurrentIdResolves() <==> HasId(conversations, id)
      ensures storedConversations == old(storedConversations) && storedCurrentId == Some(id)
      ensures old(Synced()) ==> Synced()
    {
      currentId := Some(id);
      PersistCurrentId();
    }

    /** updateConversation: replace the entries with the update's id. */
    method Update(updated: Conversation)
      modifies this
      ensures conversations == Replaced(old(conversations), updated) && currentId == old(currentId)
      ensures CurrentIdResolves() <==> old(CurrentIdResolves())
      ensures storedConversations == (if conversations != [] then Present(conversations) else old(storedConversations))
      ensures storedCurrentId == old(storedCurrentId)
      ensures old(Synced()) ==> Synced()
    {
      conversations := Replaced(conversations, updated);
      if currentId.Some? {
        ReplacedKeepsIds(old(conversations), updated, currentId.value);
      }
      PersistConversations();
    }

    /** deleteConversation: drop the entries with this id, repair the current id
        if it named them, and start over when nothing is left. The writes
        happen in source order, so the last one wins. */
    method Delete(id: Id, freshId: Id, now: Timestamp)
      modifies this
      ensures var rest := Without(old(conversations), id);
        && (rest == [] ==> conversations == [FreshConversation(freshId, now)] && currentId == Some(freshId))
        && (rest != [] ==>
              conversations == rest &&
              currentId == if old(currentId) == Some(id) then Some(rest[0].id) else old(currentId))
      ensures conversations != []
      ensures old(CurrentIdResolves()) || old(currentId) == Some(id) ==> CurrentIdResolves()
      ensures storedConversations == Present(conversations)
      ensures storedCurrentId == if currentId.Some? then Some(currentId.value) else old(storedCurrentId)
      ensures old(Synced()) ==> Synced()
    {
      var rest := Without(conversations, id);
      conversations := rest;
      if currentId == Some(id) {
        currentId := if rest != [] then Some(rest[0].id) else None;
      }
      if rest == [] {
        CreateInitial(freshId, now);
      }
      PersistConversations();
      PersistCurrentId();
      if rest == [] || old(currentId) == Some(id) {
        assert conversations[0].id == currentId.value;
      }
      if rest != [] && old(CurrentIdResolves()) && old(currentId) != Some(id) {
        var p := currentId.value;
        var i :| 0 <= i < |old(conversations)| && old(conversations)[i].id == p;
        assert old(conversations)[i] in rest;
      }
    }
  }
}
