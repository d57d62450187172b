/**
 * The project registry: for every `./projects/<dir>/App.tsx` key of the
 * build-time glob it records one project, whose id is the directory, whose
 * display name is derived from the id, and whose description names the id.
 */
module ProjectsConfig {
  import opened Js

  /** A registry entry; the lazily loaded component is identified by its glob key. */
  datatype Project = Project(id: string, name: string, description: string, componentPath: string)

  /** `path.split('/')[2]`; `None` where the split has fewer than three pieces (JavaScript's `undefined`). */
  function ProjectId(path: string): Option<string>
  {
    var parts := Split(path, '/');
    if |parts| > 2 then Some(parts[2]) else None
  }

  /** The glob key of the project directory `dir`. */
  function GlobKey(dir: string): string
  {
    "./projects/" + dir + "/App.tsx"
  }

  /** The id of a glob key is its directory, the third '/'-separated piece. */
  lemma ProjectIdOfGlobKey(dir: string)
    requires '/' !in dir
    ensures ProjectId(GlobKey(dir)) == Some(dir)
  {
    assert GlobKey(dir) == "." + ['/'] + ("projects" + ['/'] + (dir + ['/'] + "App.tsx"));
    ThirdPiece(".", "projects", dir, "App.tsx");
  }

  lemma ThirdPiece(a: string, b: string, c: string, rest: string)
    requires '/' !in a && '/' !in b && '/' !in c
    ensures |Split(a + ['/'] + (b + ['/'] + (c + ['/'] + rest)), '/')| > 2
    ensures Split(a + ['/'] + (b + ['/'] + (c + ['/'] + rest)), '/')[2] == c
  {
    SplitCons(a, '/', b + ['/'] + (c + ['/'] + rest));
    SplitCons(b, '/', c + ['/'] + rest);
    SplitCons(c, '/', rest);
  }

  /** `id.replace('project-', '').replace('-', ' ').toUpperCase()` */
  function DisplayName(id: string): string
  {
    ToUpper(ReplaceFirst(ReplaceFirst(id, "project-", ""), "-", " "))
  }

  /** A string lacking one of a pattern's characters does not include the pattern. */
  lemma MissingCharExcludes(s: string, pat: string, k: int)
    requires 0 <= k < |pat| && pat[k] !in s
    ensures !Includes(s, pat)
  {
  }

  /** The first occurrence of a one-character pattern is its first index in the string. */
  lemma FirstIndexOfChar(s: string, c: char, k: int)
    requires 0 <= k < |s| && s[k] == c && c !in s[..k]
    ensures IndexOf(s, [c]) == k
  {
    assert OccursAt(s, [c], k);
  }

  /**
   * For an id without "project-" whose first '-' is at `k`, the name is the
   * id upper-cased with only that dash turned into a space.
   */
  lemma DisplayNameReplacesFirstDash(id: string, k: int)
    requires !Includes(id, "project-")
    requires 0 <= k < |id| && id[k] == '-' && '-' !in id[..k]
    ensures var name := DisplayName(id);
      && name == ToUpper(id[..k] + " " + id[k + 1..])
      && |name| == |id|
      && name[k] == ' '
      && (forall i :: 0 <= i < |id| && i != k ==> name[i] == UpperChar(id[i]))
  {
    FirstIndexOfChar(id, '-', k);
    var spaced := ReplaceFirst(id, "-", " ");
    assert Includes(id, "-");
    assert spaced == id[..k] + " " + id[k + 1..];
    forall i | 0 <= i < |id| && i != k ensures spaced[i] == id[i] {
      if i < k {
        assert spaced[i] == id[..k][i];
      } else {
        assert spaced[i] == id[k + 1..][i - k - 1];
      }
    }
  }

  /** The note-taking project's directory yields the name "SIMPLE NOTE-TAKING": only the first dash becomes a space. */
  lemma NoteTakingName(id: string)
    requires id == "simple-note-taking"
    ensures DisplayName(id) == "SIMPLE NOTE-TAKING"
  {
    NoteTakingHasNoPrefix(id);
    NoteTakingFirstDash(id);
    DisplayNameReplacesFirstDash(id, 6);
    NoteTakingSpaced(id);
    UpperNoteTaking();
  }

  lemma NoteTakingHasNoPrefix(id: string)
    requires id == "simple-note-taking"
    ensures !Includes(id, "project-")
  {
    assert 'j' !in id;
    MissingCharExcludes(id, "project-", 3);
  }

  lemma NoteTakingFirstDash(id: string)
    requires id == "simple-note-taking"
    ensures 6 < |id| && id[6] == '-' && '-' !in id[..6]
  {
  }

  lemma NoteTakingSpaced(id: string)
    requires id == "simple-note-taking"
    ensures 6 < |id| && id[..6] + " " + id[7..] == "simple note-taking"
  {
  }

  lemma UpperNoteTaking()
    ensures ToUpper("simple note-taking") == "SIMPLE NOTE-TAKING"
  {
  }

  /** `This is the ${id} project.` */
  function Description(id: string): string
  {
    "This is the " + id + " project."
  }

  /** The id can be read back from a description: it sits between the fixed 12-character head and 9-character tail. */
  lemma DescriptionNamesId(id: string)
    ensures var d := Description(id);
      |d| == |id| + 21 && d[12..|d| - 9] == id
  {
  }

  /** The entry recorded for a glob key. */
  function ProjectFor(path: string): (p: Project)
    requires |Split(path, '/')| > 2
    ensures Some(p.id) == ProjectId(path) && p.componentPath == path
  {
    var id := Split(path, '/')[2];
    Project(id, DisplayName(id), Description(id), path)
  }

  predicate AllKeysSplit(keys: seq<string>)
  {
    forall k :: 0 <= k < |keys| ==> |Split(keys[k], '/')| > 2
  }

  /** Pushing an entry leaves the entries already there, and their prefix, in place. */
  lemma PushKeepsEntries(ps: seq<Project>, entry: Project, n: int)
    requires 0 <= n <= |ps|
    ensures (ps + [entry])[..n] == ps[..n]
    ensures forall j :: 0 <= j < |ps| ==> (ps + [entry])[j] == ps[j]
    ensures (ps + [entry])[|ps|] == entry
  {
  }

  /** The module-level `projects` array. */
  class Registry {
    var projects: seq<Project>

    constructor ()
      ensures projects == []
    {
      projects := [];
    }

    /**
     * `importAllProjects` over the glob's keys in iteration order: one entry
     * pushed per key. (A key with fewer than three pieces would make the
     * `replace` call throw; glob keys always have five.)
     */
    method ImportAllProjects(keys: seq<string>)
      requires AllKeysSplit(keys)
      modifies this`projects
      ensures |projects| == |old(projects)| + |keys|
      ensures projects[..|old(projects)|] == old(projects)
      ensures forall k :: 0 <= k < |keys| ==> projects[|old(projects)| + k] == ProjectFor(keys[k])
    {
      var i := 0;
      while i < |keys|
        invariant 0 <= i <= |keys|
        invariant |projects| == |old(projects)| + i
        invariant projects[..|old(projects)|] == old(projects)
        invariant forall k :: 0 <= k < i ==> projects[|old(projects)| + k] == ProjectFor(keys[k])
      {
        var path := keys[i];
        var id := Split(path, '/')[2];
        var entry := Project(id, DisplayName(id), Description(id), path);
        PushKeepsEntries(projects, entry, |old(projects)|);
        projects := projects + [entry];
        i := i + 1;
      }
    }
  }

  /** The glob key of each project directory gives back that directory name as the project's id, position by position. */
  lemma ImportedIdsAreDirectories(dirs: seq<string>)
    requires forall k :: 0 <= k < |dirs| ==> '/' !in dirs[k]
    ensures AllKeysSplit(MapSeq(dirs, GlobKey))
    ensures forall k :: 0 <= k < |dirs| ==> ProjectFor(GlobKey(dirs[k])).id == dirs[k]
  {
    forall k | 0 <= k < |dirs| ensures ProjectId(GlobKey(dirs[k])) == Some(dirs[k]) {
      ProjectIdOfGlobKey(dirs[k]);
    }
  }
}
