/**
 * The document-store option combinators of influxdb's document.go.
 *
 * A create-option (WithOrg, AuthorizedWithOrg) resolves an organization and
 * may record it as an owner of the document being created; a find-option
 * (WhereOrg, AuthorizedWhereOrg, AuthorizedWhere, WhereID, AuthorizedWhereID)
 * yields the IDs of the documents it selects. All of them are written against
 * an abstract DocumentIndex, modelled here by the relations it answers
 * questions about.
 */
module Document {

  /** An influxdb resource identifier; the options only compare them. */
  type ID = int

  datatype Code = ENotFound | EUnauthorized

  /** influxdb's *Error: a code and a message. */
  datatype Error = Error(code: Code, msg: string)

  /** A Go ([]ID, error) or (ID, error) pair: exactly one of the two is meaningful. */
  datatype Result<T> = Ok(value: T) | Err(error: Error)

  /** A Go error return: nil (Pass) or an error. */
  datatype Outcome = Pass | Fail(error: Error)

  /** The (ownerType, ownerID) key of the index, e.g. ("org", oid) or ("user", uid). */
  datatype Owner = Owner(ownerType: string, ownerID: ID)

  // The index's own errors. Their text belongs to the index implementation,
  // which is not part of this model; only which one is returned matters.
  const OrgNotFound := Error(ENotFound, "organization not found")
  const OwnerNotIndexed := Error(ENotFound, "owner not found in document index")
  const DocumentNotIndexed := Error(ENotFound, "document not found in document index")
  const UserNotIndexed := Error(ENotFound, "user not found in document index")
  const NotOrgOwner := Error(EUnauthorized, "user is not an owner of the organization")
  const NotOrgMember := Error(EUnauthorized, "user is not a member of the organization")

  /** The error AuthorizedWhereID builds itself. */
  const CannotAccessDocument := Error(EUnauthorized, "authorizer cannot access document")

  /**
   * The DocumentIndex a store hands to its options, scoped to the document
   * `docID` being created. A key missing from one of the maps stands for the
   * index reporting an error for that lookup.
   */
  class DocumentIndex {
    const docID: ID
    var orgsByName: map<string, ID>
    var ownersDocs: map<Owner, seq<ID>>
    var docsOwners: map<ID, seq<ID>>
    /** Pairs (userID, orgID) such that the user owns the organization. */
    var orgOwners: set<(ID, ID)>
    /** Pairs (userID, orgID) such that the user is a member of the organization. */
    var orgMembers: set<(ID, ID)>
    var usersOrgs: map<ID, seq<ID>>
    /** Fail(e) when the underlying store refuses writes with e. */
    var storeFault: Outcome

    constructor (docID: ID, orgsByName: map<string, ID>, ownersDocs: map<Owner, seq<ID>>,
                 docsOwners: map<ID, seq<ID>>, orgOwners: set<(ID, ID)>, orgMembers: set<(ID, ID)>,
                 usersOrgs: map<ID, seq<ID>>, storeFault: Outcome)
      ensures this.docID == docID && this.orgsByName == orgsByName
      ensures this.ownersDocs == ownersDocs && this.docsOwners == docsOwners
      ensures this.orgOwners == orgOwners && this.orgMembers == orgMembers
      ensures this.usersOrgs == usersOrgs && this.storeFault == storeFault
    {
      this.docID := docID;
      this.orgsByName := orgsByName;
      this.ownersDocs := ownersDocs;
      this.docsOwners := docsOwners;
      this.orgOwners := orgOwners;
      this.orgMembers := orgMembers;
      this.usersOrgs := usersOrgs;
      this.storeFault := storeFault;
    }

    /** Resolves an organization name; an unknown name is the index's not-found error. */
    function FindOrganizationByName(n: string): (r: Result<ID>)
      reads this
      ensures r.Ok? <==> n in orgsByName
      ensures r.Ok? ==> r.value == orgsByName[n]
      ensures r.Err? ==> r.error == OrgNotFound
    {
      if n in orgsByName then Ok(orgsByName[n]) else Err(OrgNotFound)
    }

    /** The documents recorded under (ownerType, ownerID); an owner without an entry is an error. */
    function GetOwnersDocuments(ownerType: string, ownerID: ID): (r: Result<seq<ID>>)
      reads this
      ensures r.Ok? <==> Owner(ownerType, ownerID) in ownersDocs
      ensures r.Ok? ==> r.value == ownersDocs[Owner(ownerType, ownerID)]
      ensures r.Err? ==> r.error == OwnerNotIndexed
    {
      var owner := Owner(ownerType, ownerID);
      if owner in ownersDocs then Ok(ownersDocs[owner]) else Err(OwnerNotIndexed)
    }

    /** The owners recorded for `doc`; a document without an entry is an error. */
    function GetDocumentsOwners(doc: ID): (r: Result<seq<ID>>)
      reads this
      ensures r.Ok? <==> doc in docsOwners
      ensures r.Ok? ==> r.value == docsOwners[doc]
      ensures r.Err? ==> r.error == DocumentNotIndexed
    {
      if doc in docsOwners then Ok(docsOwners[doc]) else Err(DocumentNotIndexed)
    }

    /** nil exactly when the user owns the organization. */
    function IsOrgOwner(userID: ID, orgID: ID): (o: Outcome)
      reads this
      ensures o.Pass? <==> (userID, orgID) in orgOwners
      ensures o.Fail? ==> o.error == NotOrgOwner
    {
      if (userID, orgID) in orgOwners then Pass else Fail(NotOrgOwner)
    }

    /** nil exactly when the user is a member of the organization. */
    function IsOrgMember(userID: ID, orgID: ID): (o: Outcome)
      reads this
      ensures o.Pass? <==> (userID, orgID) in orgMembers
      ensures o.Fail? ==> o.error == NotOrgMember
    {
      if (userID, orgID) in orgMembers then Pass else Fail(NotOrgMember)
    }

    /** The organizations of the user; a user without an entry is an error. */
    function UsersOrgs(userID: ID): (r: Result<seq<ID>>)
      reads this
      ensures r.Ok? <==> userID in usersOrgs
      ensures r.Ok? ==> r.value == usersOrgs[userID]
      ensures r.Err? ==> r.error == UserNotIndexed
    {
      if userID in usersOrgs then Ok(usersOrgs[userID]) else Err(UserNotIndexed)
    }

    /** The documents recorded under `owner`, none when it has no entry. */
    function OwnedDocs(owner: Owner): seq<ID>
      reads this
    {
      if owner in ownersDocs then ownersDocs[owner] else []
    }

    /** The owners recorded for `doc`, none when it has no entry. */
    function DocOwners(doc: ID): seq<ID>
      reads this
    {
      if doc in docsOwners then docsOwners[doc] else []
    }

    /**
     * The effect of AddDocumentOwner(owner): on a store fault nothing changes
     * and the fault is returned; otherwise `docID` is recorded under `owner`
     * and `owner` under `docID`, and nothing else changes.
     */
    twostate predicate OwnerAdded(owner: Owner, err: Outcome): (b: bool)
      reads this
      ensures b ==> (err.Pass? <==> old(storeFault).Pass?)
      ensures b && err.Pass? ==>
        && owner in ownersDocs && docID in ownersDocs[owner]
        && docID in docsOwners && owner.ownerID in docsOwners[docID]
      ensures b ==> forall o | o in old(ownersDocs) :: o in ownersDocs && old(ownersDocs[o]) <= ownersDocs[o]
    {
      && orgsByName == old(orgsByName)
      && orgOwners == old(orgOwners)
      && orgMembers == old(orgMembers)
      && usersOrgs == old(usersOrgs)
      && storeFault == old(storeFault)
      && if old(storeFault).Fail? then
           err == old(storeFault) && ownersDocs == old(ownersDocs) && docsOwners == old(docsOwners)
         else
           && err == Pass
           && ownersDocs == old(ownersDocs)[owner := old(OwnedDocs(owner)) + [docID]]
           && docsOwners == old(docsOwners)[docID := old(DocOwners(docID)) + [owner.ownerID]]
    }

    method AddDocumentOwner(ownerType: string, userID: ID) returns (err: Outcome)
      modifies this
      ensures OwnerAdded(Owner(ownerType, userID), err)
    {
      if storeFault.Fail? {
        return storeFault;
      }
      var owner := Owner(ownerType, userID);
      ownersDocs := ownersDocs[owner := OwnedDocs(owner) + [docID]];
      docsOwners := docsOwners[docID := DocOwners(docID) + [userID]];
      err := Pass;
    }
  }

  /** The user owns some organization that is recorded as an owner of `doc`. */
  predicate CanAccess(userID: ID, doc: ID, idx: DocumentIndex): (b: bool)
    reads idx
    ensures b <==> doc in idx.docsOwners && exists o :: o in idx.docsOwners[doc] && (userID, o) in idx.orgOwners
  {
    doc in idx.docsOwners &&
    var owners := idx.docsOwners[doc];
    assert (exists o :: o in owners && (userID, o) in idx.orgOwners) ==>
           exists i :: 0 <= i < |owners| && (userID, owners[i]) in idx.orgOwners by {
      if exists o :: o in owners && (userID, o) in idx.orgOwners {
        var o :| o in owners && (userID, o) in idx.orgOwners;
        var i :| 0 <= i < |owners| && owners[i] == o;
      }
    }
    exists i :: 0 <= i < |owners| && (userID, owners[i]) in idx.orgOwners
  }

  // ---------------------------------------------------------------------------
  // Create-options

  /** WithOrg(org) applied to an index. */
  method WithOrg(org: string, idx: DocumentIndex) returns (err: Outcome)
    modifies idx
    ensures org !in old(idx.orgsByName) ==> err == Fail(OrgNotFound) && unchanged(idx)
    ensures org in old(idx.orgsByName) ==> idx.OwnerAdded(Owner("org", old(idx.orgsByName[org])), err)
    ensures err.Pass? ==>
      && org in idx.orgsByName
      && WhereOrg(org, idx) == Ok(old(idx.OwnedDocs(Owner("org", idx.orgsByName[org]))) + [idx.docID])
  {
    var oid := idx.FindOrganizationByName(org);
    if oid.Err? {
      return Fail(oid.error);
    }
    err := idx.AddDocumentOwner("org", oid.value);
  }

  /** AuthorizedWithOrg(a, org) applied to an index, `userID` being a.GetUserID(). */
  method AuthorizedWithOrg(userID: ID, org: string, idx: DocumentIndex) returns (err: Outcome)
    modifies idx
    ensures org !in old(idx.orgsByName) ==> err == Fail(OrgNotFound) && unchanged(idx)
    ensures org in old(idx.orgsByName) && (userID, old(idx.orgsByName[org])) !in old(idx.orgOwners) ==>
      err == Fail(NotOrgOwner) && unchanged(idx)
    ensures org in old(idx.orgsByName) && (userID, old(idx.orgsByName[org])) in old(idx.orgOwners) ==>
      idx.OwnerAdded(Owner("org", old(idx.orgsByName[org])), err)
    ensures err.Pass? ==> CanAccess(userID, idx.docID, idx)
  {
    var oid := idx.FindOrganizationByName(org);
    if oid.Err? {
      return Fail(oid.error);
    }
    var owner := idx.IsOrgOwner(userID, oid.value);
    if owner.Fail? {
      return owner;
    }
    err := idx.AddDocumentOwner("org", oid.value);
    if err.Pass? {
      var owners := idx.docsOwners[idx.docID];
      assert owners[|owners| - 1] == oid.value;
    }
  }

  // ---------------------------------------------------------------------------
  // Find-options

  /** WhereOrg(org) applied to an index. */
  function WhereOrg(org: string, idx: DocumentIndex): (r: Result<seq<ID>>)
    reads idx
    ensures r.Ok? <==> org in idx.orgsByName && Owner("org", idx.orgsByName[org]) in idx.ownersDocs
    ensures r.Ok? ==> r.value == idx.ownersDocs[Owner("org", idx.orgsByName[org])]
    ensures org !in idx.orgsByName ==> r == Err(OrgNotFound)
    ensures org in idx.orgsByName && Owner("org", idx.orgsByName[org]) !in idx.ownersDocs ==>
      r == Err(OwnerNotIndexed)
  {
    match idx.FindOrganizationByName(org)
    case Err(e) => Err(e)
    case Ok(oid) => idx.GetOwnersDocuments("org", oid)
  }

  /** AuthorizedWhereOrg(a, org) applied to an index, `userID` being a.GetUserID(). */
  function AuthorizedWhereOrg(userID: ID, org: string, idx: DocumentIndex): (r: Result<seq<ID>>)
    reads idx
    ensures org !in idx.orgsByName ==> r == Err(OrgNotFound)
    ensures org in idx.orgsByName && (userID, idx.orgsByName[org]) !in idx.orgMembers ==>
      r == Err(NotOrgMember)
    ensures org in idx.orgsByName && (userID, idx.orgsByName[org]) in idx.orgMembers ==>
      r == WhereOrg(org, idx)
  {
    match idx.FindOrganizationByName(org)
    case Err(e) => Err(e)
    case Ok(oid) =>
      match idx.IsOrgMember(userID, oid)
      case Fail(e) => Err(e)
      case Pass => idx.GetOwnersDocuments("org", oid)
  }

  /** WhereID(docID) applied to an index; it has no reads clause, so it cannot consult the index. */
  function WhereID(doc: ID, idx: DocumentIndex): (r: Result<seq<ID>>)
    ensures r.Ok? && r.value == [doc]
  {
    Ok([doc])
  }

  /** AuthorizedWhereID(a, docID) applied to an index, `userID` being a.GetUserID(). */
  method AuthorizedWhereID(userID: ID, doc: ID, idx: DocumentIndex) returns (r: Result<seq<ID>>)
    ensures r.Ok? <==> CanAccess(userID, doc, idx)
    ensures r.Ok? ==> r.value == [doc]
    ensures doc !in idx.docsOwners ==> r == Err(DocumentNotIndexed)
    ensures doc in idx.docsOwners && !CanAccess(userID, doc, idx) ==> r == Err(CannotAccessDocument)
  {
    var oids := idx.GetDocumentsOwners(doc);
    if oids.Err? {
      return Err(oids.error);
    }
    for i := 0 to |oids.value|
      invariant forall j :: 0 <= j < i ==> (userID, oids.value[j]) !in idx.orgOwners
    {
      if idx.IsOrgOwner(userID, oids.value[i]).Pass? {
        return Ok([doc]);
      }
    }
    return Err(CannotAccessDocument);
  }

  // ---------------------------------------------------------------------------
  // AuthorizedWhere

  /**
   * The documents of each organization of `orgIDs`, concatenated in list
   * order; the first failing lookup makes the whole result that error.
   */
  function OrgsDocuments(orgIDs: seq<ID>, idx: DocumentIndex): (r: Result<seq<ID>>)
    reads idx
    ensures r.Ok? <==> forall i :: 0 <= i < |orgIDs| ==> Owner("org", orgIDs[i]) in idx.ownersDocs
    ensures r.Err? ==> r.error == OwnerNotIndexed
  {
    if orgIDs == [] then Ok([])
    else
      match idx.GetOwnersDocuments("org", orgIDs[0])
      case Err(e) => Err(e)
      case Ok(dids) =>
        match OrgsDocuments(orgIDs[1..], idx)
        case Err(e) => Err(e)
        case Ok(rest) => Ok(dids + rest)
  }

  /**
   * What the loop over `orgIDs` appends: the documents of the organizations
   * before the first failing lookup, all of them if none fails.
   */
  function DocumentsBeforeFailure(orgIDs: seq<ID>, idx: DocumentIndex): (r: seq<ID>)
    reads idx
    ensures OrgsDocuments(orgIDs, idx).Ok? ==> r == OrgsDocuments(orgIDs, idx).value
  {
    if orgIDs == [] then []
    else
      match idx.GetOwnersDocuments("org", orgIDs[0])
      case Err(_) => []
      case Ok(dids) => dids + DocumentsBeforeFailure(orgIDs[1..], idx)
  }

  /**
   * What AuthorizedWhere is meant to select: the documents the user owns,
   * then those of each organization UsersOrgs lists, in that order; any
   * lookup error is the result.
   */
  function AuthorizedWhereOnce(userID: ID, idx: DocumentIndex): (r: Result<seq<ID>>)
    reads idx
    ensures r.Ok? <==>
      && Owner("user", userID) in idx.ownersDocs
      && userID in idx.usersOrgs
      && forall i :: 0 <= i < |idx.usersOrgs[userID]| ==> Owner("org", idx.usersOrgs[userID][i]) in idx.ownersDocs
    ensures r.Ok? ==>
      r.value == idx.ownersDocs[Owner("user", userID)] + OrgsDocuments(idx.usersOrgs[userID], idx).value
  {
    match idx.GetOwnersDocuments("user", userID)
    case Err(e) => Err(e)
    case Ok(dids) =>
      match idx.UsersOrgs(userID)
      case Err(e) => Err(e)
      case Ok(orgIDs) =>
        match OrgsDocuments(orgIDs, idx)
        case Err(e) => Err(e)
        case Ok(more) => Ok(dids + more)
  }

  /**
   * What one call of the AuthorizedWhere closure appends to its captured list,
   * whether it fails or not: nothing when the user is not indexed, the user's
   * documents first otherwise, and all of the selection when the call succeeds.
   */
  function AppendedByCall(userID: ID, idx: DocumentIndex): (r: seq<ID>)
    reads idx
    ensures Owner("user", userID) !in idx.ownersDocs ==> r == []
    ensures Owner("user", userID) in idx.ownersDocs ==>
      && |r| >= |idx.ownersDocs[Owner("user", userID)]|
      && r[..|idx.ownersDocs[Owner("user", userID)]|] == idx.ownersDocs[Owner("user", userID)]
    ensures Owner("user", userID) in idx.ownersDocs && userID !in idx.usersOrgs ==>
      r == idx.ownersDocs[Owner("user", userID)]
    ensures AuthorizedWhereOnce(userID, idx).Ok? ==> r == AuthorizedWhereOnce(userID, idx).value
  {
    match idx.GetOwnersDocuments("user", userID)
    case Err(_) => []
    case Ok(dids) =>
      match idx.UsersOrgs(userID)
      case Err(_) => dids
      case Ok(orgIDs) => dids + DocumentsBeforeFailure(orgIDs, idx)
  }

  /** Taking one more organization into account, as one more turn of the loop does. */
  lemma {:induction false} OrgsDocumentsSnoc(orgIDs: seq<ID>, oid: ID, idx: DocumentIndex)
    requires OrgsDocuments(orgIDs, idx).Ok?
    ensures OrgsDocuments(orgIDs + [oid], idx) ==
      match idx.GetOwnersDocuments("org", oid)
      case Err(e) => Err(e)
      case Ok(dids) => Ok(OrgsDocuments(orgIDs, idx).value + dids)
    ensures DocumentsBeforeFailure(orgIDs + [oid], idx) ==
      DocumentsBeforeFailure(orgIDs, idx) + idx.OwnedDocs(Owner("org", oid))
  {
    if orgIDs == [] {
      assert [] + [oid] == [oid];
      assert [oid][1..] == [];
      var more := idx.OwnedDocs(Owner("org", oid));
      assert more + [] == more && [] + more == more;
    } else {
      assert (orgIDs + [oid])[0] == orgIDs[0];
      assert (orgIDs + [oid])[1..] == orgIDs[1..] + [oid];
      OrgsDocumentsSnoc(orgIDs[1..], oid, idx);
      var head := idx.GetOwnersDocuments("org", orgIDs[0]).value;
      var rest := OrgsDocuments(orgIDs[1..], idx).value;
      var more := idx.OwnedDocs(Owner("org", oid));
      assert head + (rest + more) == (head + rest) + more;
      assert head + (DocumentsBeforeFailure(orgIDs[1..], idx) + more)
          == (head + DocumentsBeforeFailure(orgIDs[1..], idx)) + more;
    }
  }

  /** Once a lookup has failed, later organizations change neither the error nor what was appended. */
  lemma {:induction false} OrgsDocumentsAbort(orgIDs: seq<ID>, later: seq<ID>, idx: DocumentIndex)
    requires OrgsDocuments(orgIDs, idx).Err?
    ensures OrgsDocuments(orgIDs + later, idx) == OrgsDocuments(orgIDs, idx)
    ensures DocumentsBeforeFailure(orgIDs + later, idx) == DocumentsBeforeFailure(orgIDs, idx)
  {
    assert orgIDs != [];
    assert (orgIDs + later)[0] == orgIDs[0];
    assert (orgIDs + later)[1..] == orgIDs[1..] + later;
    if idx.GetOwnersDocuments("org", orgIDs[0]).Ok? {
      OrgsDocumentsAbort(orgIDs[1..], later, idx);
    }
  }

  /** The step of the loop that meets a failing lookup at position i. */
  lemma OrgsDocumentsFailAt(orgIDs: seq<ID>, i: nat, idx: DocumentIndex)
    requires i < |orgIDs|
    requires OrgsDocuments(orgIDs[..i], idx).Ok?
    requires idx.GetOwnersDocuments("org", orgIDs[i]).Err?
    ensures OrgsDocuments(orgIDs, idx) == Err(idx.GetOwnersDocuments("org", orgIDs[i]).error)
    ensures DocumentsBeforeFailure(orgIDs, idx) == DocumentsBeforeFailure(orgIDs[..i], idx)
  {
    OrgsDocumentsSnoc(orgIDs[..i], orgIDs[i], idx);
    assert orgIDs[..i] + [orgIDs[i]] == orgIDs[..i + 1];
    OrgsDocumentsAbort(orgIDs[..i + 1], orgIDs[i + 1..], idx);
    assert orgIDs[..i + 1] + orgIDs[i + 1..] == orgIDs;
  }

  /** A document is in the concatenation iff some listed organization owns it. */
  lemma {:induction false} OrgsDocumentsMembers(orgIDs: seq<ID>, idx: DocumentIndex, d: ID)
    requires OrgsDocuments(orgIDs, idx).Ok?
    ensures d in OrgsDocuments(orgIDs, idx).value <==>
      exists i :: 0 <= i < |orgIDs| && d in idx.ownersDocs[Owner("org", orgIDs[i])]
  {
    if orgIDs != [] {
      OrgsDocumentsMembers(orgIDs[1..], idx, d);
      assert forall i :: 1 <= i < |orgIDs| ==> orgIDs[i] == orgIDs[1..][i - 1];
      if exists i :: 0 <= i < |orgIDs| && d in idx.ownersDocs[Owner("org", orgIDs[i])] {
        var i :| 0 <= i < |orgIDs| && d in idx.ownersDocs[Owner("org", orgIDs[i])];
        if i > 0 {
          assert d in idx.ownersDocs[Owner("org", orgIDs[1..][i - 1])];
        }
      }
    }
  }

  /** One failing organization lookup makes the whole AuthorizedWhere selection fail. */
  lemma AuthorizedWhereAborts(userID: ID, idx: DocumentIndex, i: nat)
    requires idx.GetOwnersDocuments("user", userID).Ok?
    requires idx.UsersOrgs(userID).Ok? && i < |idx.UsersOrgs(userID).value|
    requires idx.GetOwnersDocuments("org", idx.UsersOrgs(userID).value[i]).Err?
    ensures AuthorizedWhereOnce(userID, idx).Err?
  {
  }

  /**
   * The closure AuthorizedWhere(a) returns, for `userID` == a.GetUserID().
   * Its slice `ids` is declared outside the closure, so it survives between
   * calls and every call appends to it.
   */
  class AuthorizedWhereOption {
    const userID: ID
    var ids: seq<ID>

    constructor (userID: ID)
      ensures this.userID == userID && ids == []
    {
      this.userID := userID;
      ids := [];
    }

    method Apply(idx: DocumentIndex) returns (r: Result<seq<ID>>)
      modifies this
      ensures ids == old(ids) + AppendedByCall(userID, idx)
      ensures r == match AuthorizedWhereOnce(userID, idx)
                   case Ok(_) => Ok(ids)
                   case Err(e) => Err(e)
    {
      var dids := idx.GetOwnersDocuments("user", userID);
      if dids.Err? {
        return Err(dids.error);
      }
      ids := ids + dids.value;
      var orgIDs := idx.UsersOrgs(userID);
      if orgIDs.Err? {
        return Err(orgIDs.error);
      }
      ghost var base := ids;
      for i := 0 to |orgIDs.value|
        invariant OrgsDocuments(orgIDs.value[..i], idx).Ok?
        invariant ids == base + DocumentsBeforeFailure(orgIDs.value[..i], idx)
      {
        var odids := idx.GetOwnersDocuments("org", orgIDs.value[i]);
        if odids.Err? {
          OrgsDocumentsFailAt(orgIDs.value, i, idx);
          return Err(odids.error);
        }
        OrgsDocumentsSnoc(orgIDs.value[..i], orgIDs.value[i], idx);
        assert orgIDs.value[..i] + [orgIDs.value[i]] == orgIDs.value[..i + 1];
        ids := ids + odids.value;
      }
      assert orgIDs.value[..|orgIDs.value|] == orgIDs.value;
      return Ok(ids);
    }
  }

  /**
   * Two calls of one AuthorizedWhere closure on an unchanged index: the
   * first returns the selection, the second returns it twice over.
   */
  method AuthorizedWhereTwice(userID: ID, idx: DocumentIndex) returns (first: Result<seq<ID>>, second: Result<seq<ID>>)
    ensures first == AuthorizedWhereOnce(userID, idx)
    ensures first.Ok? ==> second == Ok(first.value + first.value)
    ensures first.Err? ==> second == first
    ensures first.Ok? && first.value != [] ==> second != first
  {
    var option := new AuthorizedWhereOption(userID);
    first := option.Apply(idx);
    assert option.ids == AppendedByCall(userID, idx);
    second := option.Apply(idx);
    if first.Ok? && first.value != [] {
      assert |second.value| == 2 * |first.value|;
    }
  }

  /** AuthorizedWhere with the accumulator declared inside the closure: every call starts afresh. */
  method AuthorizedWhereFixed(userID: ID, idx: DocumentIndex) returns (r: Result<seq<ID>>)
    ensures r == AuthorizedWhereOnce(userID, idx)
  {
    var dids := idx.GetOwnersDocuments("user", userID);
    if dids.Err? {
      return Err(dids.error);
    }
    var ids := dids.value;
    var orgIDs := idx.UsersOrgs(userID);
    if orgIDs.Err? {
      return Err(orgIDs.error);
    }
    for i := 0 to |orgIDs.value|
      invariant OrgsDocuments(orgIDs.value[..i], idx).Ok?
      invariant ids == dids.value + OrgsDocuments(orgIDs.value[..i], idx).value
    {
      var odids := idx.GetOwnersDocuments("org", orgIDs.value[i]);
      if odids.Err? {
        OrgsDocumentsFailAt(orgIDs.value, i, idx);
        return Err(odids.error);
      }
      OrgsDocumentsSnoc(orgIDs.value[..i], orgIDs.value[i], idx);
      assert orgIDs.value[..i] + [orgIDs.value[i]] == orgIDs.value[..i + 1];
      ids := ids + odids.value;
    }
    assert orgIDs.value[..|orgIDs.value|] == orgIDs.value;
    return Ok(ids);
  }
}
