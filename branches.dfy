/** The storefront's table of pickup branches and its lookup by id. */
module Branches {
  import opened Common

  /** A pickup branch. The map coordinates are left out. */
  datatype Branch = Branch(id: string, address: string)

  /** `branches` */
  const BranchTable: seq<Branch> := [
    Branch("main", "ул. Амира Тимура, 15"),
    Branch("mirzo", "ул. Мирзо Улугбека, 42")
  ]

  /** `branches.find(b => b.id === id)`: a branch with that id, or nothing
      when none has it. */
  function FindBranch(bs: seq<Branch>, id: string): (r: Option<Branch>)
    ensures r.None? <==> forall i :: 0 <= i < |bs| ==> bs[i].id != id
    ensures r.Some? ==> r.value in bs && r.value.id == id
  {
    if bs == [] then None
    else if bs[0].id == id then Some(bs[0])
    else FindBranch(bs[1..], id)
  }

  /** The branch found is the first one with the id. */
  lemma {:induction false} FindBranchFirst(bs: seq<Branch>, id: string, k: int)
    requires 0 <= k < |bs| && bs[k].id == id
    requires forall j :: 0 <= j < k ==> bs[j].id != id
    ensures FindBranch(bs, id) == Some(bs[k])
    decreases k
  {
    if k > 0 {
      assert bs[0].id != id;
      FindBranchFirst(bs[1..], id, k - 1);
    }
  }

  /** `getBranchById`: the branch, or `null`. */
  function GetBranchById(id: string): Option<Branch> {
    FindBranch(BranchTable, id)
  }

  /** The table holds exactly `main` and `mirzo`, in that order, each with an
      address; the lookup finds each of them and nothing else. */
  lemma BranchTableFacts(id: string)
    ensures |BranchTable| == 2
    ensures BranchTable[0].id == "main" && BranchTable[1].id == "mirzo" && BranchTable[0].id != BranchTable[1].id
    ensures forall i :: 0 <= i < |BranchTable| ==> BranchTable[i].address != ""
    ensures GetBranchById(id) ==
      if id == "main" then Some(BranchTable[0])
      else if id == "mirzo" then Some(BranchTable[1])
      else None
  {
    assert BranchTable[0].id != BranchTable[1].id by {
      assert BranchTable[0].id[1] != BranchTable[1].id[1];
    }
  }
}
