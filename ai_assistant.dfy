/**
 * The AI assistant's store: a list of the user's domains, newest first and without
 * repeats, and a list of saved chats that are created or replaced by id, deleted, looked
 * up and sorted by their last-update stamp. `Date.now()` is a parameter.
 */
module AiAssistant {
  import opened Common
  import opened Text
  import opened Collections

  datatype Role = User | Model
  datatype ChatMessage = ChatMessage(role: Role, text: string)

  datatype SavedChat = SavedChat(id: string, title: string, history: seq<ChatMessage>, lastUpdated: int)

  /** What a caller hands to `saveChat`: a chat without its stamp. */
  datatype ChatData = ChatData(id: string, title: string, history: seq<ChatMessage>)

  // ---------------------------------------------------------------------------------
  // Domains

  /** Every stored domain is non-empty and trimmed, and none is stored twice. */
  predicate DomainsValid(domains: seq<string>) {
    && NoDuplicates(domains)
    && forall i :: 0 <= i < |domains| ==> domains[i] != "" && Trim(domains[i]) == domains[i]
  }

  /** `addDomain`: the trimmed domain goes in front unless it is empty or already listed. */
  function WithDomain(domains: seq<string>, domain: string): (r: seq<string>)
    ensures r == domains || r == [Trim(domain)] + domains
    ensures r != domains <==> Trim(domain) != "" && Trim(domain) !in domains
    ensures Trim(domain) != "" ==> Trim(domain) in r
  {
    var clean := Trim(domain);
    if clean != "" && clean !in domains then [clean] + domains else domains
  }

  /** Adding a domain keeps the list valid; in particular it never introduces a duplicate. */
  lemma {:induction false} WithDomainValid(domains: seq<string>, domain: string)
    requires DomainsValid(domains)
    ensures DomainsValid(WithDomain(domains, domain))
  {
    var r := WithDomain(domains, domain);
    if r != domains {
      NoDuplicatesCons(Trim(domain), domains);
      TrimIdempotent(domain);
      assert forall i :: 0 < i < |r| ==> r[i] == domains[i - 1];
    }
  }

  function Other(domain: string): string -> bool {
    x => x != domain
  }

  /** `removeDomain` removes every copy of the domain and keeps the rest in order, valid. */
  lemma {:induction false} RemoveDomainCorrect(domains: seq<string>, domain: string)
    ensures domain !in Filter(domains, Other(domain))
    ensures forall x :: x != domain ==> (x in Filter(domains, Other(domain)) <==> x in domains)
    ensures DomainsValid(domains) ==> DomainsValid(Filter(domains, Other(domain)))
  {
    var r := Filter(domains, Other(domain));
    forall x ensures x in r <==> x in domains && x != domain {
      FilterMembership(domains, Other(domain), x);
    }
    if DomainsValid(domains) {
      FilterNoDuplicates(domains, Other(domain));
      forall i | 0 <= i < |r| ensures r[i] != "" && Trim(r[i]) == r[i] {
        assert r[i] in domains;
      }
    }
  }

  // ---------------------------------------------------------------------------------
  // Saved chats

  function IdIs(id: string): SavedChat -> bool {
    (c: SavedChat) => c.id == id
  }

  function IdIsNot(id: string): SavedChat -> bool {
    (c: SavedChat) => c.id != id
  }

  function LastUpdated(c: SavedChat): int {
    c.lastUpdated
  }

  /** `chats.find(c => c.id === id)`: the first chat with the id. */
  function FindChat(chats: seq<SavedChat>, id: string): (r: Option<SavedChat>)
    ensures r.None? <==> forall i :: 0 <= i < |chats| ==> chats[i].id != id
    ensures r.Some? ==> r.value.id == id && r.value in chats
    ensures r.Some? ==> exists i :: 0 <= i < |chats| && chats[i] == r.value && forall j :: 0 <= j < i ==> chats[j].id != id
  {
    var i := FindIndex(chats, IdIs(id));
    if i == -1 then None else Some(chats[i])
  }

  /**
   * The update in `saveChat`: the first chat with the same id is replaced in place, or,
   * when there is none, the chat is put in front.
   */
  function Upserted(chats: seq<SavedChat>, chat: SavedChat): (r: seq<SavedChat>)
    ensures chat in r && |chats| <= |r| <= |chats| + 1
    ensures (forall i :: 0 <= i < |chats| ==> chats[i].id != chat.id) ==> r == [chat] + chats
  {
    var i := FindIndex(chats, IdIs(chat.id));
    if i > -1 then
      var r := chats[i := chat];
      assert r[i] == chat;
      r
    else [chat] + chats
  }

  /** The replaced chat is the first with the id, and nothing else moves. */
  lemma {:induction false} UpsertedReplacesFirst(chats: seq<SavedChat>, chat: SavedChat, i: nat)
    requires i < |chats| && chats[i].id == chat.id
    requires forall j :: 0 <= j < i ==> chats[j].id != chat.id
    ensures Upserted(chats, chat) == chats[i := chat]
  {
    assert IdIs(chat.id)(chats[i]);
  }

  /** Looking a chat up right after saving it finds what was saved. */
  lemma {:induction false} SaveThenFind(chats: seq<SavedChat>, chat: SavedChat)
    ensures FindChat(Upserted(chats, chat), chat.id) == Some(chat)
  {
    var i := FindIndex(chats, IdIs(chat.id));
    var r := Upserted(chats, chat);
    if i > -1 {
      assert forall j :: 0 <= j < i ==> r[j] == chats[j];
      assert IdIs(chat.id)(r[i]);
    } else {
      assert IdIs(chat.id)(r[0]);
    }
  }

  /** Saving a chat does not change what a lookup of another id finds. */
  lemma {:induction false} SaveKeepsOthers(chats: seq<SavedChat>, chat: SavedChat, id: string)
    requires id != chat.id
    ensures FindChat(Upserted(chats, chat), id) == FindChat(chats, id)
  {
    var r := Upserted(chats, chat);
    var k := FindIndex(chats, IdIs(chat.id));
    var p := IdIs(id);
    if k > -1 {
      assert forall j :: 0 <= j < |chats| ==> (p(r[j]) <==> p(chats[j]));
      FindIndexSame(r, chats, p);
    } else {
      assert !p(r[0]);
      FindIndexCons(r, p);
      assert r[1..] == chats;
    }
  }

  /** After deleting an id no chat with it is found. */
  lemma {:induction false} DeleteThenFind(chats: seq<SavedChat>, id: string)
    ensures FindChat(Filter(chats, IdIsNot(id)), id) == None
  {
    var r := Filter(chats, IdIsNot(id));
    forall i | 0 <= i < |r| ensures r[i].id != id {
      assert r[i] in r;
    }
  }

  /** Deleting an id does not change what a lookup of another id finds. */
  lemma {:induction false} DeleteKeepsOthers(chats: seq<SavedChat>, id: string, other: string)
    requires other != id
    ensures FindChat(Filter(chats, IdIsNot(id)), other) == FindChat(chats, other)
  {
    assert forall c :: IdIs(other)(c) ==> IdIsNot(id)(c);
    FindIndexFiltered(chats, IdIsNot(id), IdIs(other));
  }

  /** The assistant's store. It starts empty; loading it from and saving it to storage is not modelled. */
  class AiAssistantService {
    var domains: seq<string>
    var savedChats: seq<SavedChat>

    predicate Valid()
      reads this
    {
      DomainsValid(domains)
    }

    constructor()
      ensures domains == [] && savedChats == [] && Valid()
    {
      domains := [];
      savedChats := [];
    }

    method AddDomain(domain: string)
      modifies this
      ensures domains == WithDomain(old(domains), domain) && savedChats == old(savedChats)
      ensures old(Valid()) ==> Valid()
    {
      var cleanDomain := Trim(domain);
      if cleanDomain != "" && cleanDomain !in domains {
        domains := [cleanDomain] + domains;
      }
      if DomainsValid(old(domains)) {
        WithDomainValid(old(domains), domain);
      }
    }

    method RemoveDomain(domain: string)
      modifies this
      ensures domains == Filter(old(domains), Other(domain)) && savedChats == old(savedChats)
      ensures old(Valid()) ==> Valid()
    {
      domains := Filter(domains, Other(domain));
      RemoveDomainCorrect(old(domains), domain);
    }

    /** Sorts the stored chats in place, most recently updated first, and returns them. */
    method GetSortedChats() returns (sorted: seq<SavedChat>)
      modifies this
      ensures savedChats == SortDescending(old(savedChats), LastUpdated) && sorted == savedChats
      ensures domains == old(domains)
    {
      savedChats := SortDescending(savedChats, LastUpdated);
      sorted := savedChats;
    }

    function GetChat(chatId: string): Option<SavedChat>
      reads this
    {
      FindChat(savedChats, chatId)
    }

    /** Stamps the chat with `now`, stores it and returns it. */
    method SaveChat(chatData: ChatData, now: int) returns (saved: SavedChat)
      modifies this
      ensures saved == SavedChat(chatData.id, chatData.title, chatData.history, now)
      ensures savedChats == Upserted(old(savedChats), saved) && domains == old(domains)
      ensures GetChat(chatData.id) == Some(saved)
    {
      saved := SavedChat(chatData.id, chatData.title, chatData.history, now);
      var index := FindIndex(savedChats, IdIs(saved.id));
      if index > -1 {
        savedChats := savedChats[index := saved];
      } else {
        savedChats := [saved] + savedChats;
      }
      SaveThenFind(old(savedChats), saved);
    }

    method DeleteChat(chatId: string)
      modifies this
      ensures savedChats == Filter(old(savedChats), IdIsNot(chatId)) && domains == old(domains)
      ensures GetChat(chatId) == None
    {
      savedChats := Filter(savedChats, IdIsNot(chatId));
      DeleteThenFind(old(savedChats), chatId);
    }
  }
}
