/**
 * The backend's in-memory project list: `saveProject` appends to it and the
 * routes look a project up by id with `Array.prototype.find`.
 */
module ProjectStore {
  import opened Wrappers
  import opened Templates

  /** The `status` field of a project record. */
  datatype Status = Creating | Completed

  /** A saved project; `id` comes from `Date.now()` and `created` from
      `new Date().toISOString()`, both supplied by the caller. */
  datatype Project = Project(id: nat, name: string, kind: string, files: seq<Slot>, created: string, status: Status)

  /** `projects.find(p => p.id == id)`: the first record with that id, or
      `undefined` when there is none. */
  function FindById(projects: seq<Project>, id: nat): (r: Option<Project>)
    ensures r.None? <==> forall j :: 0 <= j < |projects| ==> projects[j].id != id
    ensures r.Some? ==> exists k :: 0 <= k < |projects| && projects[k] == r.value && r.value.id == id
                                    && forall j :: 0 <= j < k ==> projects[j].id != id
    decreases |projects|
  {
    if projects == [] then None
    else if projects[0].id == id then Some(projects[0])
    else
      var r := FindById(projects[1..], id);
      assert r.Some? ==> exists k :: 0 <= k < |projects[1..]| && projects[1..][k] == r.value && r.value.id == id
                                     && forall j :: 0 <= j < k ==> projects[1..][j].id != id;
      if r.Some? then
        var k :| 0 <= k < |projects[1..]| && projects[1..][k] == r.value && r.value.id == id
                 && forall j :: 0 <= j < k ==> projects[1..][j].id != id;
        assert projects[k + 1] == r.value;
        assert forall j :: 1 <= j < k + 1 ==> projects[j] == projects[1..][j - 1];
        r
      else r
  }

  /** Appending a record never changes what an earlier record answers: the
      lookup in the longer list is the old answer if there was one, else the
      new record if its id matches, else not found. */
  lemma {:induction false} FindByIdAppend(projects: seq<Project>, p: Project, id: nat)
    ensures FindById(projects + [p], id)
            == if FindById(projects, id).Some? then FindById(projects, id)
               else if p.id == id then Some(p) else None
    decreases |projects|
  {
    if projects == [] {
      assert [p][1..] == [];
    } else {
      assert (projects + [p])[0] == projects[0];
      assert (projects + [p])[1..] == projects[1..] + [p];
      FindByIdAppend(projects[1..], p, id);
    }
  }

  /** A record whose id no earlier record has is found by its id. */
  lemma SavedRecordFound(projects: seq<Project>, p: Project)
    requires forall j :: 0 <= j < |projects| ==> projects[j].id != p.id
    ensures FindById(projects + [p], p.id) == Some(p)
  {
    FindByIdAppend(projects, p, p.id);
  }

  /** With duplicate time-based ids the earlier record shadows the later one:
      the lookup keeps returning the record saved first. */
  lemma DuplicateIdShadowed(projects: seq<Project>, p: Project, k: nat)
    requires k < |projects| && projects[k].id == p.id
    ensures FindById(projects + [p], p.id) == FindById(projects, p.id)
    ensures FindById(projects + [p], p.id).Some?
  {
    FindByIdAppend(projects, p, p.id);
  }

  /** The module-level `let projects = []` of the backend. */
  class Store {
    var projects: seq<Project>

    constructor()
      ensures projects == []
    {
      projects := [];
    }

    /** `saveProject` without its file-system writes: builds a completed
        record, pushes it at the end of the list and returns it. */
    method SaveProject(id: nat, name: string, kind: string, files: seq<Slot>, created: string)
      returns (project: Project)
      modifies this
      ensures project == Project(id, name, kind, files, created, Completed)
      ensures projects == old(projects) + [project]
    {
      project := Project(id, name, kind, files, created, Completed);
      projects := projects + [project];
    }
  }
}
