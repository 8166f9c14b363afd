/** The contracts list (frontend/src/ContractsPage.js): the filter panel, its sort options,
    the reset button, the local update after a termination, and which action buttons a row
    offers to whom. */
module ContractsPage {

  import opened Common
  import opened Seqs
  import opened Sorting

  /** A rental contract as the list holds it. `status` and `spaceType` (`contract.space?.spaceType`)
      are "" when absent; dates are day numbers, None when the contract has none. */
  datatype Contract = Contract(
    id: int,
    contractNumber: string,
    status: string,
    startDate: Option<int>,
    endDate: Option<int>,
    monthlyRent: int,
    spaceType: string,
    tenantName: string)

  /** The filter panel: the two date bounds (None for an empty date input), the ticked status and
      space-type boxes, and the sort select. */
  datatype Criteria = Criteria(
    startDate: Option<int>,
    endDate: Option<int>,
    statuses: seq<string>,
    spaceTypes: seq<string>,
    sortOption: string)

  const NoCriteria := Criteria(None, None, [], [], "")

  const Terminated := "TERMINATED"

  predicate MatchesStartDate(c: Contract, from: Option<int>)
  {
    from.None? || (c.startDate.Some? && c.startDate.value >= from.value)
  }

  predicate MatchesEndDate(c: Contract, until: Option<int>)
  {
    until.None? || (c.endDate.Some? && c.endDate.value <= until.value)
  }

  /** `statuses.length === 0 || (contract.status && statuses.includes(contract.status))` */
  predicate MatchesStatus(c: Contract, statuses: seq<string>)
  {
    |statuses| == 0 || (c.status != "" && c.status in statuses)
  }

  predicate MatchesSpaceType(c: Contract, spaceTypes: seq<string>)
  {
    |spaceTypes| == 0 || (c.spaceType != "" && c.spaceType in spaceTypes)
  }

  /** The test `handleFilter` passes to `contracts.filter`. */
  predicate Matches(c: Contract, crit: Criteria)
  {
    && MatchesStartDate(c, crit.startDate)
    && MatchesEndDate(c, crit.endDate)
    && MatchesStatus(c, crit.statuses)
    && MatchesSpaceType(c, crit.spaceTypes)
  }

  function FilterContracts(contracts: seq<Contract>, crit: Criteria): seq<Contract>
  {
    Filter(contracts, (c: Contract) => Matches(c, crit))
  }

  /** The start date as the date comparator reads it. A contract without one compares as day 0. */
  function StartKey(c: Contract): int
  {
    if c.startDate.Some? then c.startDate.value else 0
  }

  /** The list after terminating `contractId`: every contract with that id gets status
      TERMINATED, the others stay as they were. */
  function MarkTerminated(contracts: seq<Contract>, contractId: int): seq<Contract>
  {
    MapWhere(contracts, (c: Contract) => c.id == contractId, (c: Contract) => c.(status := Terminated))
  }

  /** The Renew button: a tenant, on an active or expired contract. */
  predicate CanRenew(user: Option<User>, c: Contract)
  {
    HasRole(user, Tenant) && (c.status == "ACTIVE" || c.status == "EXPIRED")
  }

  /** The Terminate button: an owner or an administrator, on an active contract. */
  predicate CanTerminate(user: Option<User>, c: Contract)
  {
    (HasRole(user, Owner) || HasRole(user, Admin)) && c.status == "ACTIVE"
  }

  // ---- properties of the filter ----

  /** With no dates and nothing ticked, filtering keeps every contract in its order. */
  lemma NoCriteriaKeepsAll(contracts: seq<Contract>, crit: Criteria)
    requires crit.startDate.None? && crit.endDate.None?
    requires crit.statuses == [] && crit.spaceTypes == []
    ensures FilterContracts(contracts, crit) == contracts
  {
    FilterKeepsAll(contracts, (c: Contract) => Matches(c, crit));
  }

  /** What every kept contract satisfies, criterion by criterion. */
  lemma FilteredMeetCriteria(contracts: seq<Contract>, crit: Criteria, c: Contract)
    requires c in FilterContracts(contracts, crit)
    ensures c in contracts
    ensures crit.statuses != [] ==> c.status != "" && c.status in crit.statuses
    ensures crit.spaceTypes != [] ==> c.spaceType != "" && c.spaceType in crit.spaceTypes
    ensures crit.startDate.Some? ==> c.startDate.Some? && c.startDate.value >= crit.startDate.value
    ensures crit.endDate.Some? ==> c.endDate.Some? && c.endDate.value <= crit.endDate.value
  {
  }

  /** Nothing that meets the criteria is dropped, and the kept contracts are in list order. */
  lemma FilterContractsComplete(contracts: seq<Contract>, crit: Criteria)
    ensures forall c :: c in contracts && Matches(c, crit) ==> c in FilterContracts(contracts, crit)
    ensures IsSubsequence(FilterContracts(contracts, crit), contracts)
  {
    FilterIsSubsequence(contracts, (c: Contract) => Matches(c, crit));
  }

  // ---- properties of termination and of the action buttons ----

  /** Termination touches only the status of the contracts with that id. */
  lemma MarkTerminatedEffect(contracts: seq<Contract>, contractId: int)
    ensures |MarkTerminated(contracts, contractId)| == |contracts|
    ensures forall i :: 0 <= i < |contracts| && contracts[i].id == contractId ==>
      MarkTerminated(contracts, contractId)[i] == contracts[i].(status := Terminated)
    ensures forall i :: 0 <= i < |contracts| && contracts[i].id != contractId ==>
      MarkTerminated(contracts, contractId)[i] == contracts[i]
  {
  }

  /** No user is offered both Renew and Terminate on the same contract. */
  lemma RenewTerminateExclusive(user: Option<User>, c: Contract)
    ensures !(CanRenew(user, c) && CanTerminate(user, c))
  {
  }

  /** Only a tenant may renew, and only an owner or an administrator may terminate; a
      contract that is not active offers no Terminate, whoever looks at it. */
  lemma ActionRoles(user: Option<User>, c: Contract)
    ensures CanRenew(user, c) ==> user.Some? && user.value.role == Tenant
    ensures CanTerminate(user, c) ==> user.Some? && (user.value.role == Owner || user.value.role == Admin)
    ensures c.status != "ACTIVE" ==> !CanTerminate(user, c)
    ensures c.status != "ACTIVE" && c.status != "EXPIRED" ==> !CanRenew(user, c)
  {
  }

  /** Once terminated, a contract offers neither Renew nor Terminate to anyone. */
  lemma {:induction false} TerminatedOffersNoAction(contracts: seq<Contract>, contractId: int, user: Option<User>)
    ensures forall c :: c in MarkTerminated(contracts, contractId) && c.id == contractId ==>
      !CanRenew(user, c) && !CanTerminate(user, c)
  {
    var r := MarkTerminated(contracts, contractId);
    forall c | c in r && c.id == contractId
      ensures c.status == Terminated
    {
      var i :| 0 <= i < |r| && r[i] == c;
      assert contracts[i].id == contractId;
    }
  }

  /** The component's state: the loaded list, the list on screen, the user and the filter panel. */
  class Page {
    var contracts: seq<Contract>
    var filteredContracts: seq<Contract>
    var user: Option<User>
    var startDate: Option<int>
    var endDate: Option<int>
    var contractStatuses: seq<string>
    var spaceTypes: seq<string>
    var sortOption: string

    function CurrentCriteria(): Criteria
      reads this
    {
      Criteria(startDate, endDate, contractStatuses, spaceTypes, sortOption)
    }

    /** The initial `useState` values, with the user read from local storage. */
    constructor (user: Option<User>)
      ensures this.user == user
      ensures contracts == [] && filteredContracts == []
      ensures CurrentCriteria() == NoCriteria
    {
      this.user := user;
      contracts, filteredContracts := [], [];
      startDate, endDate := None, None;
      contractStatuses, spaceTypes := [], [];
      sortOption := "";
    }

    /** The fetch effect's success branch: both lists become the server's answer. */
    method Loaded(data: seq<Contract>)
      modifies this`contracts, this`filteredContracts
      ensures contracts == data && filteredContracts == data
    {
      contracts := data;
      filteredContracts := data;
    }

    /** `handleFilter`: filter the loaded contracts, sort the result in place by the chosen
        option, and show it. */
    method HandleFilter()
      modifies this`filteredContracts
      ensures multiset(filteredContracts) == multiset(FilterContracts(contracts, CurrentCriteria()))
      ensures sortOption == "priceAsc" ==> forall i, j :: 0 <= i < j < |filteredContracts| ==>
        filteredContracts[i].monthlyRent <= filteredContracts[j].monthlyRent
      ensures sortOption == "priceDesc" ==> forall i, j :: 0 <= i < j < |filteredContracts| ==>
        filteredContracts[i].monthlyRent >= filteredContracts[j].monthlyRent
      ensures sortOption == "dateAsc" ==> forall i, j :: 0 <= i < j < |filteredContracts| ==>
        StartKey(filteredContracts[i]) <= StartKey(filteredContracts[j])
      ensures sortOption == "dateDesc" ==> forall i, j :: 0 <= i < j < |filteredContracts| ==>
        StartKey(filteredContracts[i]) >= StartKey(filteredContracts[j])
      ensures sortOption !in {"priceAsc", "priceDesc", "dateAsc", "dateDesc"} ==>
        filteredContracts == FilterContracts(contracts, CurrentCriteria())
    {
      var filtered := FilterContracts(contracts, CurrentCriteria());
      var a := new Contract[|filtered|](i requires 0 <= i < |filtered| => filtered[i]);
      assert a[..] == filtered;
      if sortOption == "dateAsc" {
        InsertionSort(a, (x: Contract, y: Contract) => StartKey(x) <= StartKey(y));
      } else if sortOption == "dateDesc" {
        InsertionSort(a, (x: Contract, y: Contract) => StartKey(y) <= StartKey(x));
      } else if sortOption == "priceAsc" {
        InsertionSort(a, (x: Contract, y: Contract) => x.monthlyRent <= y.monthlyRent);
      } else if sortOption == "priceDesc" {
        InsertionSort(a, (x: Contract, y: Contract) => y.monthlyRent <= x.monthlyRent);
      }
      filteredContracts := a[..];
    }

    /** `handleReset`: every criterion emptied and the full list shown again. */
    method HandleReset()
      modifies this`startDate, this`endDate, this`contractStatuses, this`spaceTypes
      modifies this`sortOption, this`filteredContracts
      ensures CurrentCriteria() == NoCriteria
      ensures filteredContracts == contracts
    {
      startDate, endDate := None, None;
      contractStatuses, spaceTypes := [], [];
      sortOption := "";
      filteredContracts := contracts;
    }

    /** `handleTerminateContract`: after the user confirms and the server accepts the delete,
        both lists become the list with that contract terminated; otherwise nothing changes. */
    method TerminateContract(contractId: int, confirmed: bool, deleteSucceeded: bool)
      modifies this`contracts, this`filteredContracts
      ensures confirmed && deleteSucceeded ==>
        contracts == MarkTerminated(old(contracts), contractId) && filteredContracts == contracts
      ensures !(confirmed && deleteSucceeded) ==>
        contracts == old(contracts) && filteredContracts == old(filteredContracts)
    {
      if confirmed && deleteSucceeded {
        var updated := MarkTerminated(contracts, contractId);
        filteredContracts := updated;
        contracts := updated;
      }
    }
  }

  /** After a reset, applying the (now empty) filter shows the loaded list in its order. */
  lemma ResetThenFilterShowsAll(contracts: seq<Contract>)
    ensures FilterContracts(contracts, NoCriteria) == contracts
  {
    NoCriteriaKeepsAll(contracts, NoCriteria);
  }
}
