/** Paths of the release tree, and how a reference in a page, a stylesheet or a module resolves to one. Symbolic links
    are not part of this model, so a path is what its components say. */
module ReleasePaths {

  /** The components below the file system root. */
  type Path = seq<string>

  datatype PageScript = NoScript | Script(src: string)

  /** A file, with what the build finds in its text: the relative references that its kind of file makes, in their
      order, and the versioned `./app.js` module that a page loads. */
  datatype File = File(text: string, references: seq<string>, script: PageScript)

  type Tree = map<Path, File>

  /** The text before the first `?`. */
  function WithoutQuery(value: string): string {
    if value == [] || value[0] == '?' then [] else [value[0]] + WithoutQuery(value[1..])
  }

  /** The pieces between slashes. */
  function Components(value: string): (parts: seq<string>)
    ensures parts != []
  {
    if value == [] then [""]
    else
      var rest := Components(value[1..]);
      if value[0] == '/' then [""] + rest else [[value[0]] + rest[0]] + rest[1..]
  }

  function Parent(path: Path): Path {
    if path == [] then [] else path[..|path| - 1]
  }

  function Go(base: Path, part: string): Path {
    if part == "" || part == "." then base else if part == ".." then Parent(base) else base + [part]
  }

  function Walk(base: Path, parts: seq<string>): Path
    decreases |parts|
  {
    if parts == [] then base else Walk(Go(base, parts[0]), parts[1..])
  }

  function Resolve(base: Path, value: string): Path {
    Walk(base, Components(WithoutQuery(value)))
  }

  datatype AssetError = EscapesRoot(value: string) | Missing(value: string) | NoPage | NoAppScript

  datatype Asset = Found(path: Path) | Refused(error: AssetError)

  /** A reference must name a file below the root. */
  function RequireAsset(tree: Tree, root: Path, base: Path, value: string): (r: Asset)
    ensures r.Found? ==> r.path in tree && root <= r.path && r.path == Resolve(base, value)
    ensures r.Refused? && r.error.EscapesRoot? <==> !(root <= Resolve(base, value))
  {
    var candidate := Resolve(base, value);
    if !(root <= candidate) then Refused(EscapesRoot(value))
    else if candidate !in tree then Refused(Missing(value))
    else Found(candidate)
  }

  /** The path's suffix is `.js`: the name ends so and is more than that. */
  predicate IsScript(path: Path) {
    path != [] && EndsInJs(path[|path| - 1])
  }

  predicate EndsInJs(name: string) {
    |name| > 3 && name[|name| - 3..] == ".js"
  }

  /** A module is walked on from exactly when its name is a name and `.js`. */
  lemma ScriptsAreNamed(directory: Path, name: string)
    ensures IsScript(directory + [name]) <==> exists stem: string :: stem != "" && name == stem + ".js"
  {
    if EndsInJs(name) { assert name == name[..|name| - 3] + ".js"; }
  }

  // ---------------------------------------------------------------------------------------------
  // What a reference names
  // ---------------------------------------------------------------------------------------------

  /** The components with slashes between them. */
  function Joined(parts: seq<string>): string
    requires parts != []
  {
    if |parts| == 1 then parts[0] else parts[0] + ("/" + Joined(parts[1..]))
  }

  predicate IsFree(text: string, c: char) {
    forall i :: 0 <= i < |text| ==> text[i] != c
  }

  lemma {:induction false} QueryDropped(text: string, query: string)
    requires IsFree(text, '?')
    ensures WithoutQuery(text) == text
    ensures WithoutQuery(text + ("?" + query)) == text
  {
    if text == "" {
      assert text + ("?" + query) == "?" + query;
    } else {
      QueryDropped(text[1..], query);
      assert (text + ("?" + query))[1..] == text[1..] + ("?" + query);
    }
  }

  lemma {:induction false} OneComponent(part: string, rest: string)
    requires IsFree(part, '/')
    ensures Components(part) == [part]
    ensures Components(part + ("/" + rest)) == [part] + Components(rest)
  {
    if part == "" {
      assert part + ("/" + rest) == "/" + rest && ("/" + rest)[1..] == rest;
    } else {
      OneComponent(part[1..], rest);
      assert (part + ("/" + rest))[1..] == part[1..] + ("/" + rest);
      assert part == [part[0]] + part[1..];
    }
  }

  lemma {:induction false} ComponentsOfJoined(parts: seq<string>)
    requires parts != [] && forall i :: 0 <= i < |parts| ==> IsFree(parts[i], '/')
    ensures Components(Joined(parts)) == parts
  {
    OneComponent(parts[0], if |parts| == 1 then "" else Joined(parts[1..]));
    if |parts| > 1 {
      ComponentsOfJoined(parts[1..]);
      assert parts == [parts[0]] + parts[1..];
    } else {
      assert parts == [parts[0]];
    }
  }

  /** A name of a file or directory, which says where to go from where one is. */
  predicate IsName(part: string) {
    part != "" && part != "." && part != ".." && IsFree(part, '/')
  }

  function Ups(n: nat): seq<string> {
    if n == 0 then [] else [".."] + Ups(n - 1)
  }

  lemma {:induction false} WalkNames(base: Path, names: seq<string>)
    requires forall i :: 0 <= i < |names| ==> IsName(names[i])
    ensures Walk(base, names) == base + names
    decreases |names|
  {
    if names == [] {
      assert base + [] == base;
    } else {
      WalkNames(base + [names[0]], names[1..]);
      assert (base + [names[0]]) + names[1..] == base + names;
    }
  }

  /** So many directories up, and at the top no further. */
  function Back(base: Path, n: nat): Path {
    if n <= |base| then base[..|base| - n] else []
  }

  lemma {:induction false} WalkUps(base: Path, n: nat, names: seq<string>)
    ensures Walk(base, Ups(n) + names) == Walk(Back(base, n), names)
    decreases n
  {
    if n == 0 {
      assert Ups(0) + names == names && Back(base, 0) == base;
    } else {
      hide Back, Parent;
      WalkUps(Parent(base), n - 1, names);
      assert (Ups(n) + names)[1..] == Ups(n - 1) + names;
      BackOnce(base, n);
    }
  }

  lemma BackOnce(base: Path, n: nat)
    requires n > 0
    ensures Back(Parent(base), n - 1) == Back(base, n)
  {}

  lemma {:induction false} UpsAre(n: nat)
    ensures |Ups(n)| == n && forall i :: 0 <= i < n ==> Ups(n)[i] == ".."
  {
    if n > 0 { UpsAre(n - 1); }
  }

  function Parts(ups: nat, names: seq<string>): seq<string> {
    ["."] + (Ups(ups) + names)
  }

  lemma PartsAreFree(ups: nat, names: seq<string>)
    requires forall i :: 0 <= i < |names| ==> IsName(names[i])
    ensures forall i :: 0 <= i < |Parts(ups, names)| ==> IsFree(Parts(ups, names)[i], '/')
  {
    UpsAre(ups);
    hide Ups;
    assert IsFree(".", '/') && IsFree("..", '/');
    forall i | 0 <= i < |Parts(ups, names)| ensures IsFree(Parts(ups, names)[i], '/') {
      if i > ups { assert Parts(ups, names)[i] == names[i - ups - 1]; }
    }
  }

  lemma WalkParts(base: Path, ups: nat, names: seq<string>)
    requires forall i :: 0 <= i < |names| ==> IsName(names[i])
    ensures Walk(base, Parts(ups, names)) == Back(base, ups) + names
  {
    assert Parts(ups, names)[1..] == Ups(ups) + names;
    WalkUps(base, ups, names);
    WalkNames(Back(base, ups), names);
  }

  /** A reference names what its components say from the directory of its file: here, up, and down, whatever query
      follows it. */
  lemma ReferenceResolves(base: Path, ups: nat, names: seq<string>, query: string)
    requires forall i :: 0 <= i < |names| ==> IsName(names[i])
    requires IsFree(Joined(Parts(ups, names)), '?')
    ensures Resolve(base, Joined(Parts(ups, names))) == Back(base, ups) + names
    ensures Resolve(base, Joined(Parts(ups, names)) + ("?" + query)) == Back(base, ups) + names
  {
    hide Joined, Ups, Walk, Components, WithoutQuery, IsName, IsFree;
    PartsAreFree(ups, names);
    ComponentsOfJoined(Parts(ups, names));
    QueryDropped(Joined(Parts(ups, names)), query);
    WalkParts(base, ups, names);
  }

  // ---------------------------------------------------------------------------------------------
  // When a reference escapes
  // ---------------------------------------------------------------------------------------------

  /** How far above the base the components lead at the deepest point, given `depth` named components to fall back on. */
  function Climbs(parts: seq<string>, depth: nat): nat
    decreases |parts|
  {
    if parts == [] then 0
    else if parts[0] == "" || parts[0] == "." then Climbs(parts[1..], depth)
    else if parts[0] == ".." then
      if depth == 0 then 1 + Climbs(parts[1..], 0) else Climbs(parts[1..], depth - 1)
    else Climbs(parts[1..], depth + 1)
  }

  /** A reference that never climbs above the directory of its file stays below it, whatever it names. */
  lemma {:induction false} StaysBelow(base: Path, below: Path, parts: seq<string>)
    requires Climbs(parts, |below|) == 0
    ensures base <= Walk(base + below, parts)
    decreases |parts|
  {
    if parts != [] {
      if parts[0] == "" || parts[0] == "." {
        StaysBelow(base, below, parts[1..]);
      } else if parts[0] == ".." {
        assert Parent(base + below) == base + below[..|below| - 1];
        StaysBelow(base, below[..|below| - 1], parts[1..]);
      } else {
        assert (base + below) + [parts[0]] == base + (below + [parts[0]]);
        StaysBelow(base, below + [parts[0]], parts[1..]);
      }
    }
  }

  /** So in a file below the root, such a reference is never refused as escaping. */
  lemma NoClimbNoEscape(tree: Tree, root: Path, base: Path, value: string)
    requires root <= base && Climbs(Components(WithoutQuery(value)), 0) == 0
    ensures !(RequireAsset(tree, root, base, value).Refused? && RequireAsset(tree, root, base, value).error.EscapesRoot?)
  {
    assert base + [] == base;
    StaysBelow(base, [], Components(WithoutQuery(value)));
  }

  // ---------------------------------------------------------------------------------------------
  // A separate output directory
  // ---------------------------------------------------------------------------------------------

  /** Neither directory is, or lies in, the other, and the output is not the whole file system. */
  predicate SafeOutput(source: Path, output: Path) {
    !(output == source || source < output || output < source || output == [])
  }

  predicate Below(directory: Path, path: Path) {
    directory <= path
  }

  /** Exactly the outputs that share no file with the source. */
  lemma SafeExactlyWhenDisjoint(source: Path, output: Path)
    ensures SafeOutput(source, output) <==> forall p :: !(Below(source, p) && Below(output, p))
  {
    if SafeOutput(source, output) {
      forall p ensures !(Below(source, p) && Below(output, p)) {
        if Below(source, p) && Below(output, p) { Comparable(source, output, p); }
      }
    } else if source <= output {
      assert Below(source, output) && Below(output, output);
    } else {
      assert Below(source, source) && Below(output, source);
    }
  }

  lemma Comparable(a: Path, b: Path, p: Path)
    requires a <= p && b <= p
    ensures a <= b || b <= a
  {
    assert if |a| <= |b| then a == p[..|a|] == b[..|a|] else b == p[..|b|] == a[..|b|];
  }
}
