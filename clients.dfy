/** The client register screen: its search filter and the form dialog's state. */
module Clients {
  import opened Wrappers
  import opened Records
  import Text
  import Lists

  /** The client search: the lower-cased name or e-mail contains the lower-cased term, or
      the phone contains the term as typed. */
  predicate MatchesClient(c: Client, term: string)
  {
    Text.Contains(Text.Lower(c.name), Text.Lower(term))
    || Text.Contains(Text.Lower(c.email), Text.Lower(term))
    || Text.Contains(c.phone, term)
  }

  /** `clients.filter(...)`. */
  function FilteredClients(clients: seq<Client>, term: string): seq<Client>
  {
    Lists.Filter(clients, (c: Client) => MatchesClient(c, term))
  }

  /** A client is listed iff they match, and the listing keeps the register order. */
  lemma FilteredClientsSpec(clients: seq<Client>, term: string, c: Client)
    ensures c in FilteredClients(clients, term) <==> c in clients && MatchesClient(c, term)
    ensures Lists.IsSubsequence(FilteredClients(clients, term), clients)
  {
    Lists.FilterMembership(clients, (d: Client) => MatchesClient(d, term), c);
    Lists.FilterIsSubsequence(clients, (d: Client) => MatchesClient(d, term));
  }

  /** With an empty search box every client is listed, in order. */
  lemma EmptyTermListsAll(clients: seq<Client>)
    ensures FilteredClients(clients, "") == clients
  {
    forall i | 0 <= i < |clients| ensures MatchesClient(clients[i], "") {
      Text.ContainsEmpty(Text.Lower(clients[i].name));
    }
    Lists.FilterAllPass(clients, (d: Client) => MatchesClient(d, ""));
  }

  /** The phone is matched as typed: a term found in the phone always lists the client. */
  lemma PhoneMatchLists(clients: seq<Client>, term: string, c: Client)
    requires c in clients && Text.Contains(c.phone, term)
    ensures c in FilteredClients(clients, term)
  {
    FilteredClientsSpec(clients, term, c);
  }

  class ClientsScreen {
    var isModalOpen: bool
    var selectedClient: Option<Client>
    var searchTerm: string

    constructor ()
      ensures !isModalOpen && selectedClient == None && searchTerm == ""
    {
      isModalOpen := false;
      selectedClient := None;
      searchTerm := "";
    }

    /** `openModal(client = null)`: `None` opens the form for a new client. */
    method OpenModal(client: Option<Client>)
      modifies this`isModalOpen, this`selectedClient
      ensures isModalOpen && selectedClient == client
    {
      selectedClient := client;
      isModalOpen := true;
    }

    /** `closeModal`: forgets the client being edited. */
    method CloseModal()
      modifies this`isModalOpen, this`selectedClient
      ensures !isModalOpen && selectedClient == None
    {
      selectedClient := None;
      isModalOpen := false;
    }

    method SetSearchTerm(term: string)
      modifies this`searchTerm
      ensures searchTerm == term
    {
      searchTerm := term;
    }
  }
}
