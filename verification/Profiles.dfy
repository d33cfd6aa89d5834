/** The cleanup of the system profile links that keep bootloader entries alive. */
module Profiles {
  import opened Common
  import DeploymentStore

  type Name = string

  /** The directory of links: its path, the target of each link, the links that
      cannot be read and those that cannot be removed. */
  class ProfileDirectory {
    const path: Path
    const unreadable: set<Name>
    const stuck: set<Name>
    var links: map<Name, Path>

    constructor (path: Path, links: map<Name, Path>, unreadable: set<Name>, stuck: set<Name>)
      ensures this.path == path && this.links == links && this.unreadable == unreadable && this.stuck == stuck
    {
      this.path, this.links, this.unreadable, this.stuck := path, links, unreadable, stuck;
    }

    function PathOf(n: Name): Path {
      path + "/" + n
    }

    predicate CanRead(n: Name)
      reads this
    {
      n in links && n !in unreadable
    }

    /** Removes the links that nothing protects. */
    method RemoveProfiles(readable: bool, profileName: Name, tracked: set<Path>, booted: Path)
      modifies this`links
      ensures !readable || !old(CanRead(profileName)) ==> links == old(links)
      ensures readable && old(CanRead(profileName)) ==>
        links == map n | n in old(links) && Keeps(this, old(links), profileName, tracked, booted, n) :: old(links)[n]
    {
      if !readable {
        return;
      }
      if profileName !in links || profileName in unreadable {
        return;
      }
      var preserved := tracked + {links[profileName]};
      ghost var before := links;
      var entries := links.Keys;
      while entries != {}
        invariant entries <= before.Keys
        invariant forall n :: n in links <==>
          n in before && (n in entries || Keeps(this, before, profileName, tracked, booted, n))
        invariant forall n :: n in links ==> links[n] == before[n]
      {
        var n :| n in entries;
        entries := entries - {n};
        if n == profileName {
          continue;
        }
        if n in unreadable {
          continue;
        }
        if links[n] == booted {
          continue;
        }
        if PathOf(n) !in preserved {
          if n !in stuck {
            links := links - {n};
          }
        }
      }
    }
  }

  /** The reasons for which a link stays. */
  ghost predicate Keeps(dir: ProfileDirectory, links: map<Name, Path>, profileName: Name, tracked: set<Path>,
                        booted: Path, n: Name)
    requires n in links && profileName in links
  {
    || n == profileName || n in dir.unreadable || n in dir.stuck
    || links[n] == booted
    || dir.PathOf(n) in tracked
    || dir.PathOf(n) == links[profileName]
  }

  /** The cleanup of a deployment: the links of all deployments of the history and
      the one just created are passed as tracked. No link recorded on a deployment
      is removed, nor the new one, nor one to the booted system, nor the default
      profile and the absolute path it designates; of what can be read and removed
      nothing else remains. */
  method CleanUp(store: DeploymentStore.Store, dir: ProfileDirectory, readable: bool, profileName: Name, created: Path,
                 booted: Path)
    modifies dir`links
    ensures forall n :: n in dir.links ==> n in old(dir.links) && dir.links[n] == old(dir.links)[n]
    ensures forall n, d :: n in old(dir.links) && d in store.deployments && d.profilePath == dir.PathOf(n) ==>
      n in dir.links
    ensures forall n :: n in old(dir.links) && (dir.PathOf(n) == created || old(dir.links)[n] == booted) ==>
      n in dir.links
    ensures !readable || !old(dir.CanRead(profileName)) ==> dir.links == old(dir.links)
    ensures readable && old(dir.CanRead(profileName)) ==>
      forall n :: n in old(dir.links) ==>
        (n in dir.links <==>
           || n == profileName || n in dir.unreadable || n in dir.stuck
           || old(dir.links)[n] == booted || dir.PathOf(n) == created
           || dir.PathOf(n) == old(dir.links)[profileName]
           || exists d :: d in store.deployments && d.profilePath == dir.PathOf(n))
  {
    var tracked := store.GetDeploymentProfilePaths();
    forall n ensures dir.PathOf(n) != "" {
      assert |dir.PathOf(n)| >= 1;
    }
    dir.RemoveProfiles(readable, profileName, tracked + {created}, booted);
  }

  /** The link that the default profile designates is meant to stay. When the
      default profile is a relative link, as the ones created by nix-env are, it
      stays only if something else protects it. */
  lemma RelativeDefaultIsKeptIff(dir: ProfileDirectory, links: map<Name, Path>, profileName: Name, tracked: set<Path>,
                                 booted: Path, n: Name)
    requires n in links && profileName in links && links[profileName] == n && n != profileName
    ensures Keeps(dir, links, profileName, tracked, booted, n) <==>
      n in dir.unreadable || n in dir.stuck || links[n] == booted || dir.PathOf(n) in tracked
  {
    assert |dir.PathOf(n)| > |n|;
  }

  lemma AbsoluteDefaultIsKept(dir: ProfileDirectory, links: map<Name, Path>, profileName: Name, tracked: set<Path>,
                              booted: Path, n: Name)
    requires n in links && profileName in links && links[profileName] == dir.PathOf(n)
    ensures Keeps(dir, links, profileName, tracked, booted, n)
  {
  }

  /** A directory with one profile, designated relatively, not tracked, not booted. */
  lemma RelativeDefaultExample(dir: ProfileDirectory)
    requires dir.unreadable == {} && dir.stuck == {}
    ensures var links := map["comin" := "comin-1-link", "comin-1-link" := "/nix/store/a"];
      !Keeps(dir, links, "comin", {}, "/nix/store/b", "comin-1-link")
  {
    var links := map["comin" := "comin-1-link", "comin-1-link" := "/nix/store/a"];
    assert |"comin"| != |"comin-1-link"|;
    assert "/nix/store/a"[11] != "/nix/store/b"[11];
    RelativeDefaultIsKeptIff(dir, links, "comin", {}, "/nix/store/b", "comin-1-link");
  }
}
