/** The lexical path cleaning the source relies on when it compares working
    directories and executables (`filepath.Clean` on a slash-separated system). */
module Paths {
  import opened Basics

  function Resolve(rooted: bool, todo: seq<string>, done: seq<string>): seq<string> {
    if todo == [] then done
    else
      var c := todo[0];
      if c == "" || c == "." then Resolve(rooted, todo[1..], done)
      else if c != ".." then Resolve(rooted, todo[1..], done + [c])
      else if done != [] && Last(done) != ".." then Resolve(rooted, todo[1..], Front(done))
      else if rooted then Resolve(rooted, todo[1..], done)
      else Resolve(rooted, todo[1..], done + [c])
  }

  function Clean(path: string): string {
    if path == "" then "."
    else
      var rooted := path[0] == '/';
      var out := Join(Resolve(rooted, Split(path, '/'), []), '/');
      if rooted then "/" + out else if out == "" then "." else out
  }

  predicate SamePath(left: string, right: string) {
    Clean(left) == Clean(right)
  }

  predicate Normal(rooted: bool, done: seq<string>) {
    && (forall i :: 0 <= i < |done| ==> done[i] != "" && done[i] != "." && '/' !in done[i])
    && (forall i :: 0 <= i < |done| && done[i] == ".." ==>
          !rooted && forall j :: 0 <= j < i ==> done[j] == "..")
  }

  lemma {:induction false} ResolveIsNormal(rooted: bool, todo: seq<string>, done: seq<string>)
    requires Normal(rooted, done)
    requires forall i :: 0 <= i < |todo| ==> '/' !in todo[i]
    ensures Normal(rooted, Resolve(rooted, todo, done))
    decreases |todo|
  {
    if todo != [] {
      var c := todo[0];
      if c == "" || c == "." {
        ResolveIsNormal(rooted, todo[1..], done);
      } else if c != ".." {
        ResolveIsNormal(rooted, todo[1..], done + [c]);
      } else if done != [] && Last(done) != ".." {
        ResolveIsNormal(rooted, todo[1..], Front(done));
      } else if rooted {
        ResolveIsNormal(rooted, todo[1..], done);
      } else {
        if done != [] {
          assert done[|done| - 1] == "..";
        }
        ResolveIsNormal(rooted, todo[1..], done + [c]);
      }
    }
  }

  lemma {:induction false} ResolveKeepsNormal(rooted: bool, done: seq<string>, k: nat)
    requires Normal(rooted, done) && k <= |done|
    ensures Resolve(rooted, done[k..], done[..k]) == done
    decreases |done| - k
  {
    if k < |done| {
      var todo := done[k..];
      assert todo[1..] == done[k + 1..];
      assert done[..k] + [todo[0]] == done[..k + 1];
      if todo[0] == ".." && k > 0 {
        assert done[k - 1] == "..";
      }
      ResolveKeepsNormal(rooted, done, k + 1);
    } else {
      assert done[k..] == [] && done[..k] == done;
    }
  }

  lemma {:induction false} ResolveIgnoresEmpty(rooted: bool, todo: seq<string>, done: seq<string>)
    ensures Resolve(rooted, [""] + todo, done) == Resolve(rooted, todo, done)
  {
    assert ([""] + todo)[1..] == todo;
  }

  lemma {:induction false} NormalJoinHead(done: seq<string>, rooted: bool)
    requires Normal(rooted, done) && done != []
    ensures Join(done, '/') != "" && Join(done, '/')[0] != '/'
  {
    assert done[0] != "" && done[0][0] in done[0];
    if |done| > 1 {
      assert Join(done, '/') == done[0] + ['/'] + Join(done[1..], '/');
      assert Join(done, '/')[0] == done[0][0];
    }
  }

  /** Cleaning is idempotent, so comparing a cleaned path with a raw one is the
      same as comparing the raw ones. */
  lemma {:induction false} CleanIdempotent(path: string)
    ensures Clean(path) != ""
    ensures Clean(Clean(path)) == Clean(path)
  {
    if path != "" {
      var rooted := path[0] == '/';
      var done := Resolve(rooted, Split(path, '/'), []);
      ResolveIsNormal(rooted, Split(path, '/'), []);
      var out := Join(done, '/');
      if done == [] {
        if rooted {
          assert Clean(path) == "/" + "" == "/";
          assert Split("/", '/') == ["", ""] by {
            SplitHead("", "", '/');
            assert "" + ['/'] + "" == "/";
          }
          ResolveIgnoresEmpty(true, [""], []);
          ResolveIgnoresEmpty(true, [], []);
          assert [""] + [""] == ["", ""];
          assert [""] + [] == [""];
        } else {
          DotIsClean();
        }
      } else {
        NormalJoinHead(done, rooted);
        SplitJoin(done, '/');
        ResolveKeepsNormal(rooted, done, 0);
        assert done[0..] == done && done[..0] == [];
        if rooted {
          SplitHead("", out, '/');
          assert "" + ['/'] + out == "/" + out;
          ResolveIgnoresEmpty(true, done, []);
        }
      }
    } else {
      DotIsClean();
    }
  }

  lemma DotIsClean()
    ensures Clean(".") == "."
  {
    SplitAtom(".", '/');
    assert Resolve(false, ["."], []) == Resolve(false, ["."][1..], []);
  }
}
