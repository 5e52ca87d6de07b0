/**
 * The part of java.nio's Unix `Path` that the file sandbox relies on:
 * parsing, `resolve`, `normalize`, `startsWith` and `toString`, with a
 * path held as whether it is absolute plus its name elements.
 */
module JPaths {
  import opened Outcomes
  import opened Strings

  datatype Path = Path(absolute: bool, names: seq<string>)

  /** The non-empty pieces, in order. */
  function NonEmptyPieces(xs: seq<string>): (r: seq<string>)
    ensures forall i :: 0 <= i < |r| ==> r[i] != ""
    decreases |xs|
  {
    if xs == [] then [] else (if xs[0] == "" then [] else [xs[0]]) + NonEmptyPieces(xs[1..])
  }

  /** `Paths.get(s)`: absolute when it starts with `/`; repeated and trailing slashes are dropped. */
  function ParsePath(s: string): Path
  {
    Path(|s| > 0 && s[0] == '/', NonEmptyPieces(Pieces(s, '/')))
  }

  function JoinNames(names: seq<string>): string
    decreases |names|
  {
    if names == [] then "" else if |names| == 1 then names[0] else names[0] + "/" + JoinNames(names[1..])
  }

  /** `Path.toString`. */
  function PathString(p: Path): string
  {
    (if p.absolute then "/" else "") + JoinNames(p.names)
  }

  /** `base.resolve(other)`: an absolute `other` replaces `base`; otherwise its names are appended. */
  function Resolve(base: Path, other: Path): Path
  {
    if other.absolute then other else Path(base.absolute, base.names + other.names)
  }

  /**
   * One element of `normalize`, left to right: `.` is dropped; `..` removes
   * the preceding name unless that is itself `..`; a `..` with nothing to
   * remove is dropped at the root of an absolute path and kept otherwise.
   */
  function Step(absolute: bool, acc: seq<string>, name: string): seq<string>
  {
    if name == "." then acc
    else if name == ".." then
      if |acc| > 0 && acc[|acc| - 1] != ".." then acc[..|acc| - 1]
      else if absolute then acc
      else acc + [".."]
    else acc + [name]
  }

  function Fold(absolute: bool, acc: seq<string>, names: seq<string>): seq<string>
    decreases |names|
  {
    if names == [] then acc else Fold(absolute, Step(absolute, acc, names[0]), names[1..])
  }

  /** `Path.normalize`. */
  function Normalize(p: Path): Path
  {
    Path(p.absolute, Fold(p.absolute, [], p.names))
  }

  /**
   * `p.startsWith(q)`, element by element: same kind of path and `q`'s names
   * are a prefix of `p`'s. The empty path starts only the empty path.
   */
  predicate StartsWith(p: Path, q: Path)
  {
    if q == Path(false, []) then p == q else p.absolute == q.absolute && q.names <= p.names
  }

  /** No `.` and no `..` anywhere. */
  predicate Plain(xs: seq<string>)
  {
    forall i :: 0 <= i < |xs| ==> xs[i] != "." && xs[i] != ".."
  }

  /**
   * What `normalize` produces: no `.`, every `..` in a leading block, and no
   * `..` at all in an absolute path.
   */
  ghost predicate Normal(absolute: bool, xs: seq<string>)
  {
    && (forall i :: 0 <= i < |xs| ==> xs[i] != ".")
    && (forall i, j :: 0 <= i < j < |xs| && xs[j] == ".." ==> xs[i] == "..")
    && (absolute ==> forall i :: 0 <= i < |xs| ==> xs[i] != "..")
  }

  /** The names without their `.` elements. */
  function WithoutDots(xs: seq<string>): (r: seq<string>)
    ensures |r| <= |xs|
    decreases |xs|
  {
    if xs == [] then [] else (if xs[0] == "." then [] else [xs[0]]) + WithoutDots(xs[1..])
  }

  // ---------------------------------------------------------------------
  // Facts about normalize

  lemma {:induction false} FoldAppend(absolute: bool, acc: seq<string>, a: seq<string>, b: seq<string>)
    ensures Fold(absolute, acc, a + b) == Fold(absolute, Fold(absolute, acc, a), b)
    decreases |a|
  {
    if a == [] {
      assert a + b == b;
    } else {
      assert (a + b)[0] == a[0];
      assert (a + b)[1..] == a[1..] + b;
      FoldAppend(absolute, Step(absolute, acc, a[0]), a[1..], b);
    }
  }

  lemma StepKeepsNormal(absolute: bool, acc: seq<string>, name: string)
    requires Normal(absolute, acc)
    ensures Normal(absolute, Step(absolute, acc, name))
  {
    var r := Step(absolute, acc, name);
    if name == ".." && !(|acc| > 0 && acc[|acc| - 1] != "..") && !absolute {
      forall i, j | 0 <= i < j < |r| && r[j] == ".."
        ensures r[i] == ".."
      {
        assert |acc| > 0 ==> acc[|acc| - 1] == "..";
        if |acc| > 0 && i < |acc| - 1 {
          assert acc[|acc| - 1] == "..";
        }
      }
    }
  }

  lemma {:induction false} FoldKeepsNormal(absolute: bool, acc: seq<string>, names: seq<string>)
    requires Normal(absolute, acc)
    ensures Normal(absolute, Fold(absolute, acc, names))
    decreases |names|
  {
    if names != [] {
      StepKeepsNormal(absolute, acc, names[0]);
      FoldKeepsNormal(absolute, Step(absolute, acc, names[0]), names[1..]);
    }
  }

  /** Whatever the input, `normalize` leaves no `.`, and `..` only where it cannot be removed. */
  lemma NormalizeIsNormal(p: Path)
    ensures Normal(p.absolute, Normalize(p).names)
  {
    FoldKeepsNormal(p.absolute, [], p.names);
  }

  lemma {:induction false} FoldOfNormal(absolute: bool, acc: seq<string>, b: seq<string>)
    requires Normal(absolute, acc + b)
    ensures Fold(absolute, acc, b) == acc + b
    decreases |b|
  {
    if b == [] {
      assert acc + b == acc;
    } else {
      var k := |acc|;
      assert (acc + b)[k] == b[0];
      if b[0] == ".." && k > 0 {
        assert (acc + b)[k - 1] == acc[k - 1];
      }
      assert Step(absolute, acc, b[0]) == acc + [b[0]];
      assert acc + [b[0]] + b[1..] == acc + b;
      FoldOfNormal(absolute, acc + [b[0]], b[1..]);
    }
  }

  /** Normalizing an already normalized path changes nothing. */
  lemma NormalizeIdempotent(p: Path)
    ensures Normalize(Normalize(p)) == Normalize(p)
  {
    var n := Normalize(p);
    NormalizeIsNormal(p);
    assert [] + n.names == n.names;
    FoldOfNormal(p.absolute, [], n.names);
  }

  /** Names without `..` only go down: the result is the start followed by the names minus their `.`. */
  lemma {:induction false} FoldDownward(absolute: bool, acc: seq<string>, b: seq<string>)
    requires forall i :: 0 <= i < |b| ==> b[i] != ".."
    ensures Fold(absolute, acc, b) == acc + WithoutDots(b)
    decreases |b|
  {
    if b == [] {
      assert acc + [] == acc;
    } else {
      FoldDownward(absolute, Step(absolute, acc, b[0]), b[1..]);
      if b[0] == "." {
        assert WithoutDots(b) == WithoutDots(b[1..]);
      } else {
        assert WithoutDots(b) == [b[0]] + WithoutDots(b[1..]);
        assert acc + [b[0]] + WithoutDots(b[1..]) == acc + WithoutDots(b);
      }
    }
  }

  function Repeat(x: string, k: nat): (r: seq<string>)
    ensures |r| == k
    decreases k
  {
    if k == 0 then [] else [x] + Repeat(x, k - 1)
  }

  /** Each `..` in an absolute path removes one name, down to the root. */
  lemma {:induction false} FoldParents(acc: seq<string>, k: nat)
    requires Plain(acc)
    ensures Fold(true, acc, Repeat("..", k)) == acc[..if k <= |acc| then |acc| - k else 0]
    decreases k
  {
    if k > 0 {
      var ups := Repeat("..", k);
      assert ups[0] == ".." && ups[1..] == Repeat("..", k - 1);
      var next := Step(true, acc, "..");
      assert next == acc[..if 1 <= |acc| then |acc| - 1 else 0];
      FoldParents(next, k - 1);
    }
  }

  /** An absolute path of plain names followed by k `..` normalizes to the path less its last k names. */
  lemma ParentsFromRoot(names: seq<string>, k: nat)
    requires Plain(names)
    ensures Fold(true, [], names + Repeat("..", k)) == names[..if k <= |names| then |names| - k else 0]
  {
    FoldAppend(true, [], names, Repeat("..", k));
    assert [] + names == names;
    FoldOfNormal(true, [], names);
    FoldParents(names, k);
  }

  // ---------------------------------------------------------------------
  // The sandbox check

  /**
   * `resolveServerPath`: resolve `rel` against the server's data directory,
   * normalize, and refuse (SecurityException) unless the result still starts
   * with the data directory. The data directory itself is not normalized.
   */
  function ResolveWithin(host: Path, rel: Path): (r: Result<Path>)
    ensures r.Ok? ==> StartsWith(r.value, host) && Normalize(r.value) == r.value
    ensures r.Ok? <==> StartsWith(Normalize(Resolve(host, rel)), host)
    ensures r.Ok? ==> r.value == Normalize(Resolve(host, rel))
    ensures r.Err? ==> r.message == "Accès non autorisé au chemin : " + PathString(Normalize(Resolve(host, rel)))
  {
    var finalPath := Normalize(Resolve(host, rel));
    NormalizeIdempotent(Resolve(host, rel));
    if StartsWith(finalPath, host) then Ok(finalPath)
    else Err("Accès non autorisé au chemin : " + PathString(finalPath))
  }

  /** The same check on the strings the endpoints receive. */
  function ResolveServerPath(hostPath: string, relativePath: string): Result<Path>
  {
    ResolveWithin(ParsePath(hostPath), ParsePath(relativePath))
  }

  /**
   * A relative path that never names `..` is accepted under an absolute,
   * normalized data directory, and lands on the directory followed by its
   * own names minus the `.` ones; `"."` is the directory itself.
   */
  lemma DescendingPathAccepted(host: Path, rel: Path)
    requires host.absolute && Plain(host.names)
    requires !rel.absolute && forall i :: 0 <= i < |rel.names| ==> rel.names[i] != ".."
    ensures ResolveWithin(host, rel) == Ok(Path(true, host.names + WithoutDots(rel.names)))
  {
    FoldAppend(true, [], host.names, rel.names);
    assert [] + host.names == host.names;
    FoldOfNormal(true, [], host.names);
    FoldDownward(true, host.names, rel.names);
  }

  /** A relative path made only of `..` climbs above a non-root data directory and is refused. */
  lemma ClimbingPathRejected(host: Path, k: nat)
    requires host.absolute && Plain(host.names) && |host.names| > 0
    requires k > 0
    ensures ResolveWithin(host, Path(false, Repeat("..", k))).Err?
  {
    FoldAppend(true, [], host.names, Repeat("..", k));
    assert [] + host.names == host.names;
    FoldOfNormal(true, [], host.names);
    FoldParents(host.names, k);
  }

  lemma PiecesOfDot()
    ensures Pieces(".", '/') == ["."]
  {
    assert "."[1..] == "";
    assert Pieces("", '/') == [""];
    assert ['.'] + "" == ".";
  }

  lemma ParseDot()
    ensures ParsePath(".") == Path(false, ["."])
  {
    PiecesOfDot();
    assert NonEmptyPieces(["."]) == ["."] + NonEmptyPieces([]);
  }

  lemma ParseDotDot()
    ensures ParsePath("..") == Path(false, [".."])
  {
    assert ".."[1..] == ".";
    PiecesOfDot();
    assert ['.'] + "." == "..";
    assert Pieces("..", '/') == [".."];
    assert NonEmptyPieces([".."]) == [".."] + NonEmptyPieces([]);
  }

  /** The listing endpoint's default `"."` yields the data directory itself. */
  lemma DefaultPathIsRoot(hostPath: string)
    requires ParsePath(hostPath).absolute && Plain(ParsePath(hostPath).names)
    ensures ResolveServerPath(hostPath, ".") == Ok(ParsePath(hostPath))
  {
    ParseDot();
    var host := ParsePath(hostPath);
    DescendingPathAccepted(host, Path(false, ["."]));
    assert WithoutDots(["."]) == [];
    assert host.names + [] == host.names;
  }

  /** `".."` is refused for any data directory below the root. */
  lemma ParentOfRootRejected(hostPath: string)
    requires ParsePath(hostPath).absolute && Plain(ParsePath(hostPath).names) && |ParsePath(hostPath).names| > 0
    ensures ResolveServerPath(hostPath, "..").Err?
  {
    ParseDotDot();
    assert Repeat("..", 1) == [".."];
    ClimbingPathRejected(ParsePath(hostPath), 1);
  }
}
