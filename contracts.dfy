/** The contracts controller: one contract by id, and the caller's
    contracts with the caller's role in each. A caller only ever sees
    contracts they are a party to. */
module Contracts {
  import opened Wrappers
  import opened Keys
  import opened Models
  import opened Parsing

  datatype Role = ClientRole | ContractorRole

  /** The `role` field of a listed contract. */
  function RoleName(role: Role): string
  {
    match role
    case ClientRole => "client"
    case ContractorRole => "contractor"
  }

  /** The `firstName` and `lastName` attributes of an included profile. */
  datatype PartyName = PartyName(firstName: string, lastName: string)

  /** A contract row with its `Client` and `Contractor` includes; an include
      whose profile row is missing is null. */
  datatype ContractView = ContractView(id: nat, contract: Contract, client: Option<PartyName>, contractor: Option<PartyName>)

  /** A contract row of a list, with the caller's role added. */
  datatype ListedContract = ListedContract(view: ContractView, role: Role)

  function NameOf(s: Store, id: nat): Option<PartyName>
  {
    if id in s.profiles then Some(PartyName(s.profiles[id].firstName, s.profiles[id].lastName)) else None
  }

  function View(s: Store, id: nat): ContractView
    requires id in s.contracts
  {
    var c := s.contracts[id];
    ContractView(id, c, NameOf(s, c.clientId), NameOf(s, c.contractorId))
  }

  /** `x.ClientId === userId ? "client" : "contractor"`: a caller who is both
      parties is told "client". */
  function RoleOf(c: Contract, user: nat): (r: Role)
    ensures r == ClientRole <==> c.clientId == user
    ensures IsParty(c, user) && r == ContractorRole ==> c.contractorId == user
  {
    if c.clientId == user then ClientRole else ContractorRole
  }

  function Entry(s: Store, user: nat, id: nat): ListedContract
    requires id in s.contracts
  {
    ListedContract(View(s, id), RoleOf(s.contracts[id], user))
  }

  /** `GET /contracts/:id`: an id `parseInt` cannot read as a non-negative
      number is refused; a contract that is missing and one the caller is no
      party to are both `not_found`. */
  function GetContract(s: Store, user: nat, rawId: string): (r: Result<ContractView, ApiError>)
    ensures r == Err(InvalidContractId) <==> ParseId(rawId).None?
    ensures r.Ok? <==> ParseId(rawId).Some? && ParseId(rawId).value in s.contracts
                       && IsParty(s.contracts[ParseId(rawId).value], user)
    ensures r.Err? ==> r.error == InvalidContractId || r.error == NotFound
    ensures r.Ok? ==> r.value.id == ParseId(rawId).value && IsParty(r.value.contract, user)
  {
    match ParseId(rawId)
    case None => Err(InvalidContractId)
    case Some(id) =>
      if id in s.contracts && IsParty(s.contracts[id], user) then Ok(View(s, id)) else Err(NotFound)
  }

  /** The answer for a contract the caller is no party to is the answer for
      a contract that does not exist: it does not reveal that it exists. */
  lemma GetContractHidesOthers(s: Store, user: nat, rawId: string, id: nat)
    requires ParseId(rawId) == Some(id) && id in s.contracts && !IsParty(s.contracts[id], user)
    ensures GetContract(s, user, rawId) == GetContract(s.(contracts := s.contracts - {id}), user, rawId) == Err(NotFound)
  {
  }

  /** The rows of a list query, in ascending id order. */
  function Listing(s: Store, user: nat, ids: seq<nat>): (r: seq<ListedContract>)
    requires forall id :: id in ids ==> id in s.contracts
    ensures |r| == |ids|
    ensures forall i :: 0 <= i < |ids| ==> r[i] == Entry(s, user, ids[i])
  {
    seq(|ids|, i requires 0 <= i < |ids| => Entry(s, user, ids[i]))
  }

  /** The ids of the rows of a list. */
  function IdsOf(r: seq<ListedContract>): (ids: seq<nat>)
    ensures |ids| == |r|
    ensures forall i :: 0 <= i < |r| ==> ids[i] == r[i].view.id
  {
    seq(|r|, i requires 0 <= i < |r| => r[i].view.id)
  }

  predicate Visible(s: Store, user: nat, id: nat)
  {
    id in s.contracts && IsParty(s.contracts[id], user)
  }

  predicate Active(s: Store, user: nat, id: nat)
  {
    Visible(s, user, id) && s.contracts[id].status != Terminated
  }

  /** The ids the `where` clause of `GET /contracts` selects, ascending. */
  function ActiveIds(s: Store, user: nat): (ids: seq<nat>)
    ensures forall id :: id in ids <==> Active(s, user, id)
    ensures Increasing(ids)
  {
    Filter(SortedKeys(s.contracts.Keys), (id: nat) => Active(s, user, id))
  }

  /** The ids the `where` clause of `GET /all-contracts` selects, ascending. */
  function VisibleIds(s: Store, user: nat): (ids: seq<nat>)
    ensures forall id :: id in ids <==> Visible(s, user, id)
    ensures Increasing(ids)
  {
    Filter(SortedKeys(s.contracts.Keys), (id: nat) => Visible(s, user, id))
  }

  /** `GET /contracts`: the caller's contracts that are not terminated. */
  function NonTerminatedContracts(s: Store, user: nat): (r: seq<ListedContract>)
    ensures IdsOf(r) == ActiveIds(s, user)
  {
    ListingIds(s, user, ActiveIds(s, user));
    Listing(s, user, ActiveIds(s, user))
  }

  /** `GET /all-contracts`: all of the caller's contracts. */
  function AllContracts(s: Store, user: nat): (r: seq<ListedContract>)
    ensures IdsOf(r) == VisibleIds(s, user)
  {
    ListingIds(s, user, VisibleIds(s, user));
    Listing(s, user, VisibleIds(s, user))
  }

  lemma {:induction false} ListingIds(s: Store, user: nat, ids: seq<nat>)
    requires forall id :: id in ids ==> id in s.contracts
    ensures IdsOf(Listing(s, user, ids)) == ids
  {
    var r := Listing(s, user, ids);
    assert forall i :: 0 <= i < |ids| ==> IdsOf(r)[i] == Entry(s, user, ids[i]).view.id == ids[i];
  }

  /** Every row of a list is the contract's own row with the caller's role:
      the caller is a party, and the role is "client" exactly when the
      caller is its client. */
  predicate WellTagged(s: Store, user: nat, r: seq<ListedContract>)
  {
    forall e :: e in r ==>
      && e.view.id in s.contracts
      && e == Entry(s, user, e.view.id)
      && IsParty(e.view.contract, user)
      && (e.role == ClientRole <==> e.view.contract.clientId == user)
      && (e.role == ContractorRole ==> e.view.contract.contractorId == user)
  }

  lemma ListingTagged(s: Store, user: nat, ids: seq<nat>)
    requires forall id :: id in ids ==> id in s.contracts && IsParty(s.contracts[id], user)
    ensures WellTagged(s, user, Listing(s, user, ids))
  {
    var r := Listing(s, user, ids);
    forall e | e in r
      ensures e.view.id in s.contracts && e == Entry(s, user, e.view.id) && IsParty(e.view.contract, user)
    {
      var i :| 0 <= i < |r| && r[i] == e;
      assert ids[i] in ids;
      assert e == Entry(s, user, ids[i]);
    }
  }

  /** The non-terminated list holds exactly the caller's contracts that are
      not terminated, each once, in ascending id order. */
  lemma NonTerminatedExact(s: Store, user: nat)
    ensures forall id :: id in IdsOf(NonTerminatedContracts(s, user)) <==>
              id in s.contracts && IsParty(s.contracts[id], user) && s.contracts[id].status != Terminated
    ensures Increasing(IdsOf(NonTerminatedContracts(s, user)))
  {
    ListingIds(s, user, ActiveIds(s, user));
  }

  /** Each row of the non-terminated list is tagged with the caller's role. */
  lemma NonTerminatedTagged(s: Store, user: nat)
    ensures WellTagged(s, user, NonTerminatedContracts(s, user))
  {
    ListingTagged(s, user, ActiveIds(s, user));
  }

  /** The full list holds exactly the caller's contracts, each once, in
      ascending id order. */
  lemma AllContractsExact(s: Store, user: nat)
    ensures forall id :: id in IdsOf(AllContracts(s, user)) <==>
              id in s.contracts && IsParty(s.contracts[id], user)
    ensures Increasing(IdsOf(AllContracts(s, user)))
  {
    ListingIds(s, user, VisibleIds(s, user));
  }

  /** Each row of the full list is tagged with the caller's role. */
  lemma AllContractsTagged(s: Store, user: nat)
    ensures WellTagged(s, user, AllContracts(s, user))
  {
    ListingTagged(s, user, VisibleIds(s, user));
  }

  predicate IsTerminated(s: Store, id: nat)
  {
    id in s.contracts && s.contracts[id].status == Terminated
  }

  /** The two lists differ exactly by the caller's terminated contracts. */
  lemma AllExtendsNonTerminated(s: Store, user: nat)
    ensures forall id :: id in IdsOf(NonTerminatedContracts(s, user)) <==>
              id in IdsOf(AllContracts(s, user)) && !IsTerminated(s, id)
  {
    NonTerminatedExact(s, user);
    AllContractsExact(s, user);
  }

  /** A contract found by id is the row the full list shows for it. */
  lemma GetContractAgreesWithList(s: Store, user: nat, rawId: string)
    requires GetContract(s, user, rawId).Ok?
    ensures exists e :: e in AllContracts(s, user) && e.view == GetContract(s, user, rawId).value
  {
    var id := ParseId(rawId).value;
    AllContractsExact(s, user);
    assert id in IdsOf(AllContracts(s, user));
    var r := AllContracts(s, user);
    var i :| 0 <= i < |r| && IdsOf(r)[i] == id;
    assert r[i] in r;
  }
}
