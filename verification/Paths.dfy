/**
 Path containment of relayed output files, on Unix separators. `Clean`, `Join` and `Rel`
 follow the documented rules of Go's path/filepath on the components of a path.
 */
module Paths {
  type Parts = seq<string>

  predicate HasPrefix(s: string, p: string) {
    p <= s
  }

  predicate HasSuffix(s: string, p: string) {
    |p| <= |s| && s[|s| - |p|..] == p
  }

  predicate Contains(s: string, p: string) {
    exists i | 0 <= i <= |s| :: HasPrefix(s[i..], p)
  }

  /** The pieces between slashes; at least one, possibly empty ones. */
  function Split(s: string): (r: Parts)
    ensures |r| >= 1
    ensures forall p | p in r :: '/' !in p
  {
    if s == "" then [""]
    else
      var rest := Split(s[1..]);
      if s[0] == '/' then [""] + rest else [[s[0]] + rest[0]] + rest[1..]
  }

  function Slashed(parts: Parts): string {
    if parts == [] then ""
    else if |parts| == 1 then parts[0]
    else parts[0] + "/" + Slashed(parts[1..])
  }

  /** What one more component does to a reduced path. */
  function Push(stack: Parts, p: string, rooted: bool): Parts {
    if p == "" || p == "." then stack
    else if p != ".." then stack + [p]
    else if stack != [] && stack[|stack| - 1] != ".." then stack[..|stack| - 1]
    else if rooted then stack
    else stack + [".."]
  }

  function Reduce(parts: Parts, rooted: bool): Parts {
    if parts == [] then [] else Push(Reduce(parts[..|parts| - 1], rooted), parts[|parts| - 1], rooted)
  }

  predicate Rooted(path: string) {
    HasPrefix(path, "/")
  }

  /** The components of the cleaned path. */
  function Components(path: string): Parts {
    Reduce(Split(path), Rooted(path))
  }

  function Clean(path: string): string {
    var body := Slashed(Components(path));
    if Rooted(path) then "/" + body else if body == "" then "." else body
  }

  function Join(dir: string, name: string): string {
    if dir == "" && name == "" then ""
    else if dir == "" then Clean(name)
    else if name == "" then Clean(dir)
    else Clean(dir + "/" + name)
  }

  function CommonPrefix(a: Parts, b: Parts): (n: nat)
    ensures n <= |a| && n <= |b| && a[..n] == b[..n]
  {
    if a == [] || b == [] || a[0] != b[0] then 0 else 1 + CommonPrefix(a[1..], b[1..])
  }

  datatype RelResult = Rel(path: string) | NoRel

  function RelPath(base: string, target: string): RelResult {
    var b, t := Components(base), Components(target);
    var n := CommonPrefix(b, t);
    if Rooted(base) != Rooted(target) || ".." in b[n..] then NoRel
    else
      var body := Slashed(seq(|b| - n, _ => "..") + t[n..]);
      Rel(if body == "" then "." else body)
  }

  function IsSafeOutputName(name: string): bool {
    if name == "" then false
    else if '\\' in name || '\0' in name then false
    else if Rooted(name) then false
    else
      var cleaned := Clean(name);
      !(cleaned == "." || cleaned == ".." || HasPrefix(cleaned, "../") || Contains(cleaned, "/../")
        || HasSuffix(cleaned, "/.."))
  }

  /** A zip member is unpacked only if it also passes the second containment test. */
  function IsExtracted(destDir: string, member: string): bool {
    && IsSafeOutputName(member)
    && var rel := RelPath(Clean(destDir), Join(destDir, member));
       rel.Rel? && !HasPrefix(rel.path, "..")
  }

  // ----- splitting and joining

  lemma {:induction false} SplitSlash(a: string, b: string)
    ensures Split(a + "/" + b) == Split(a) + Split(b)
  {
    var s := a + "/" + b;
    if a == "" {
      assert s[1..] == b;
    } else {
      assert s[1..] == a[1..] + "/" + b;
      SplitSlash(a[1..], b);
    }
  }

  lemma {:induction false} SplitPlain(p: string)
    requires '/' !in p
    ensures Split(p) == [p]
  {
    if p != "" {
      SplitPlain(p[1..]);
      assert p == [p[0]] + p[1..];
    }
  }

  lemma {:induction false} SplitSlashed(parts: Parts)
    requires parts != [] && forall p | p in parts :: '/' !in p
    ensures Split(Slashed(parts)) == parts
  {
    SplitPlain(parts[0]);
    if |parts| > 1 {
      var rest := parts[1..];
      SplitSlashed(rest);
      SplitSlash(parts[0], Slashed(rest));
      assert Slashed(parts) == parts[0] + "/" + Slashed(rest);
      assert [parts[0]] + rest == parts;
    }
  }

  // ----- reduced paths

  predicate Proper(p: string) {
    p != "" && p != "." && p != ".." && '/' !in p
  }

  /** Proper components, after leading ".." if the path is relative. */
  predicate Reduced(parts: Parts, rooted: bool) {
    parts == [] ||
    var before, last := parts[..|parts| - 1], parts[|parts| - 1];
    Reduced(before, rooted) && (Proper(last)
                                || (!rooted && last == ".." && (before == [] || before[|before| - 1] == "..")))
  }

  lemma {:induction false} ReduceReduces(parts: Parts, rooted: bool)
    requires forall p | p in parts :: '/' !in p
    ensures Reduced(Reduce(parts, rooted), rooted)
  {
    if parts != [] {
      ReduceReduces(parts[..|parts| - 1], rooted);
      var r := Reduce(parts[..|parts| - 1], rooted);
      assert (r + [".."])[..|r|] == r && (r + [parts[|parts| - 1]])[..|r|] == r;
    }
  }

  lemma {:induction false} ReducedIsFixed(parts: Parts, rooted: bool)
    requires Reduced(parts, rooted)
    ensures Reduce(parts, rooted) == parts
  {
    if parts != [] {
      ReducedIsFixed(parts[..|parts| - 1], rooted);
      assert parts == parts[..|parts| - 1] + [parts[|parts| - 1]];
    }
  }

  lemma {:induction false} ReducedParts(parts: Parts, rooted: bool, i: nat)
    requires Reduced(parts, rooted) && i < |parts|
    ensures parts[i] != "" && parts[i] != "." && '/' !in parts[i]
    ensures parts[i] == ".." ==> !rooted && parts[0] == ".."
  {
    if i < |parts| - 1 {
      ReducedParts(parts[..|parts| - 1], rooted, i);
    } else if |parts| > 1 {
      ReducedParts(parts[..|parts| - 1], rooted, |parts| - 2);
    }
  }

  /** What the components of any path look like. */
  lemma ComponentsShape(path: string)
    ensures var parts := Components(path);
            && Reduced(parts, Rooted(path))
            && (forall p | p in parts :: p != "" && p != "." && '/' !in p)
            && (".." in parts ==> !Rooted(path) && parts[0] == "..")
            && (parts != [] ==> Split(Slashed(parts)) == parts && Slashed(parts) != "" && !Rooted(Slashed(parts)))
  {
    var parts := Components(path);
    ReduceReduces(Split(path), Rooted(path));
    forall i | 0 <= i < |parts|
      ensures parts[i] != "" && parts[i] != "." && '/' !in parts[i]
      ensures parts[i] == ".." ==> !Rooted(path) && parts[0] == ".."
    {
      ReducedParts(parts, Rooted(path), i);
    }
    if parts != [] {
      SplitSlashed(parts);
      assert parts[0] in parts;
      assert parts[0] <= Slashed(parts);
    }
  }

  /** Cleaning twice is cleaning once, and a cleaned path has the same components. */
  lemma CleanIdempotent(path: string)
    ensures Components(Clean(path)) == Components(path) && Rooted(Clean(path)) == Rooted(path)
    ensures Clean(Clean(path)) == Clean(path)
  {
    var parts := Components(path);
    ComponentsShape(path);
    ReducedIsFixed(parts, Rooted(path));
    if parts == [] {
      RootAndHere();
    } else if Rooted(path) {
      SplitSlash("", Slashed(parts));
      assert Clean(path) == "" + "/" + Slashed(parts);
      LeadingNothingVanishes("", parts, true);
    }
  }

  lemma RootAndHere()
    ensures Components("/") == [] && Components(".") == []
  {
    SplitSlash("", "");
    assert "/" == "" + "/" + "";
    assert Split("") == [""];
    assert ["", ""][..1] == [""] && [""][..0] == [];
    SplitPlain(".");
    assert ["."][..0] == [];
  }

  lemma {:induction false} LeadingNothingVanishes(p: string, parts: Parts, rooted: bool)
    requires p == "" || p == "."
    ensures Reduce([p] + parts, rooted) == Reduce(parts, rooted)
  {
    if parts == [] {
      assert [p] + parts == [p] && [p][..0] == [];
    } else {
      LeadingNothingVanishes(p, parts[..|parts| - 1], rooted);
      assert ([p] + parts)[..|parts|] == [p] + parts[..|parts| - 1];
    }
  }

  lemma {:induction false} LeadingDotsStay(parts: Parts, k: nat)
    requires k <= |parts| && Reduce(parts[..k], false) != [] && Reduce(parts[..k], false)[0] == ".."
    ensures Reduce(parts, false) != [] && Reduce(parts, false)[0] == ".."
    decreases |parts| - k
  {
    if k < |parts| {
      assert parts[..k + 1][..k] == parts[..k];
      LeadingDotsStay(parts, k + 1);
    } else {
      assert parts[..k] == parts;
    }
  }

  ghost predicate StaysInside(parts: Parts) {
    parts == [] || parts[0] != ".."
  }

  /** Appending components that never climb above their start only appends to the reduced path. */
  lemma {:induction false} ReduceConcat(a: Parts, b: Parts, rooted: bool)
    requires StaysInside(Reduce(b, false)) && forall p | p in b :: '/' !in p
    ensures Reduce(a + b, rooted) == Reduce(a, rooted) + Reduce(b, false)
  {
    if b == [] {
      assert a + b == a;
    } else {
      var b', p := b[..|b| - 1], b[|b| - 1];
      if !StaysInside(Reduce(b', false)) {
        LeadingDotsStay(b, |b| - 1);
        assert false;
      } else {
        ReduceConcat(a, b', rooted);
        assert (a + b)[..|a + b| - 1] == a + b';
        var q := Reduce(b', false);
        ReduceReduces(b', false);
        if q != [] {
          ReducedParts(q, false, |q| - 1);
        }
        PushConcat(Reduce(a, rooted), q, p, rooted);
      }
    }
  }

  lemma PushConcat(front: Parts, q: Parts, p: string, rooted: bool)
    requires q != [] ==> q[|q| - 1] != ".."
    requires StaysInside(Push(q, p, false))
    ensures Push(front + q, p, rooted) == front + Push(q, p, false)
  {
    if q != [] {
      assert (front + q)[|front + q| - 1] == q[|q| - 1];
      assert (front + q)[..|front + q| - 1] == front + q[..|q| - 1];
    }
    assert (front + q) + [p] == front + (q + [p]);
  }

  // ----- containment

  /**
   The accepted names are exactly the relative ones whose
   cleaned form is not empty and does not start by climbing.
   */
  lemma SafeIff(name: string)
    ensures IsSafeOutputName(name) <==>
              && name != "" && '\\' !in name && '\0' !in name && !Rooted(name)
              && Components(name) != [] && Components(name)[0] != ".."
  {
    if name != "" && !Rooted(name) && Components(name) != [] {
      FirstComponent(name);
      if Components(name)[0] != ".." {
        InnerDotsImpossible(name);
      }
    }
  }

  lemma FirstComponent(name: string)
    requires !Rooted(name) && Components(name) != []
    ensures Clean(name) != "."
    ensures Components(name)[0] == ".." <==> Clean(name) == ".." || HasPrefix(Clean(name), "../")
  {
    var parts, cleaned := Components(name), Clean(name);
    ComponentsShape(name);
    SplitPlain(".");
    SplitPlain("..");
    assert parts[0] in parts;
    if HasPrefix(cleaned, "../") {
      assert cleaned == ".." + "/" + cleaned[3..];
      SplitSlash("..", cleaned[3..]);
    }
  }

  /** The tests for an inner or final ".." never fire once the earlier ones have passed. */
  lemma InnerDotsImpossible(name: string)
    requires !Rooted(name) && Components(name) != [] && Components(name)[0] != ".."
    ensures !Contains(Clean(name), "/../") && !HasSuffix(Clean(name), "/..")
  {
    ComponentsShape(name);
    NoDotsNoTraversal(Clean(name));
  }

  lemma NoDotsNoTraversal(s: string)
    requires ".." !in Split(s)
    ensures !Contains(s, "/../") && !HasSuffix(s, "/..")
  {
    forall i | 0 <= i <= |s| ensures !HasPrefix(s[i..], "/../") {
      if HasPrefix(s[i..], "/../") {
        assert s[i..] == "/" + (".." + "/" + s[i + 4..]);
        assert s == s[..i] + "/" + (".." + "/" + s[i + 4..]);
        DotsSplitOff(s[..i], s[i + 4..]);
        assert false;
      }
    }
    if HasSuffix(s, "/..") {
      assert s == s[..|s| - 3] + "/" + "..";
      DotsSplitOff(s[..|s| - 3], "");
      assert false;
    }
  }

  lemma DotsSplitOff(x: string, y: string)
    ensures ".." in Split(x + "/" + (".." + "/" + y))
    ensures ".." in Split(x + "/" + "..")
  {
    SplitPlain("..");
    SplitSlash(x, ".." + "/" + y);
    SplitSlash("..", y);
    SplitSlash(x, "..");
  }

  ghost predicate StrictlyInside(dir: string, path: string) {
    && Rooted(path) == Rooted(dir)
    && Components(dir) < Components(path)
    && ".." !in Components(path)[|Components(dir)|..]
  }

  lemma JoinComponents(dir: string, name: string)
    requires dir != "" && name != "" && !Rooted(name) && StaysInside(Components(name))
    ensures Components(Join(dir, name)) == Components(dir) + Components(name)
    ensures Rooted(Join(dir, name)) == Rooted(dir)
  {
    var path := dir + "/" + name;
    assert Rooted(path) == Rooted(dir);
    CleanIdempotent(path);
    SplitSlash(dir, name);
    ReduceConcat(Split(dir), Split(name), Rooted(dir));
  }

  /** Joining one proper component, also to the empty path, adds that component. */
  lemma JoinOne(dir: string, p: string)
    requires Proper(p)
    ensures Components(Join(dir, p)) == Components(dir) + [p] && Rooted(Join(dir, p)) == Rooted(dir)
            && Join(dir, p) != ""
  {
    SplitPlain(p);
    assert [p][..0] == [];
    assert Reduce([], false) == [] && Reduce([p], false) == [p];
    assert Components(p) == [p];
    if dir == "" {
      CleanIdempotent(p);
      assert Split("") == [""] && [""][..0] == [] && Components("") == [];
    } else {
      JoinComponents(dir, p);
    }
    CleanNotEmpty(if dir == "" then p else dir + "/" + p);
  }

  lemma JoinThree(dir: string, a: string, b: string, c: string)
    requires Proper(a) && Proper(b) && Proper(c)
    ensures var path := Join(Join(Join(dir, a), b), c);
            Components(path) == Components(dir) + [a, b, c] && Rooted(path) == Rooted(dir) && path != ""
  {
    JoinOne(dir, a);
    JoinOne(Join(dir, a), b);
    JoinOne(Join(Join(dir, a), b), c);
    assert Components(dir) + [a] + [b] + [c] == Components(dir) + [a, b, c];
  }

  lemma CleanNotEmpty(path: string)
    ensures Clean(path) != ""
  {
  }

  /** Every accepted name lands strictly inside the directory, whatever the directory is. */
  lemma SafeNameStaysInside(dir: string, name: string)
    requires dir != "" && IsSafeOutputName(name)
    ensures StrictlyInside(dir, Join(dir, name))
    ensures Components(Join(dir, name)) == Components(dir) + Components(name)
  {
    SafeIff(name);
    JoinComponents(dir, name);
    ComponentsShape(name);
    assert Components(Join(dir, name))[|Components(dir)|..] == Components(name);
  }

  lemma {:induction false} SlashedConcat(a: Parts, b: Parts)
    requires a != [] && b != []
    ensures Slashed(a + b) == Slashed(a) + "/" + Slashed(b)
  {
    if |a| == 1 {
      assert (a + b)[1..] == b;
    } else {
      SlashedConcat(a[1..], b);
      assert (a + b)[1..] == a[1..] + b;
    }
  }

  /**
   As strings: the cleaned directory, a slash, the cleaned name,
   exactly unless the directory is the root or the current one.
   */
  lemma JoinIsConcatenationIff(dir: string, name: string)
    requires dir != "" && IsSafeOutputName(name)
    ensures Join(dir, name) == Clean(dir) + "/" + Clean(name) <==> Components(dir) != []
  {
    SafeNameStaysInside(dir, name);
    SafeIff(name);
    var d, n := Components(dir), Components(name);
    ComponentsShape(dir);
    ComponentsShape(name);
    JoinedPath(dir, name);
    ConcatenationIff(d, n, Rooted(dir), Clean(dir), Join(dir, name));
  }

  lemma ConcatenationIff(d: Parts, n: Parts, rooted: bool, cleaned: string, joined: string)
    requires n != [] && (d != [] ==> Slashed(d) != "")
    requires joined == if rooted then "/" + Slashed(d + n) else Slashed(d + n)
    requires cleaned == if rooted then "/" + Slashed(d) else if d == [] then "." else Slashed(d)
    ensures joined == cleaned + "/" + Slashed(n) <==> d != []
  {
    if d == [] {
      assert d + n == n;
      assert |joined| < |cleaned + "/" + Slashed(n)|;
    } else {
      SlashedConcat(d, n);
      assert "/" + (Slashed(d) + "/" + Slashed(n)) == ("/" + Slashed(d)) + "/" + Slashed(n);
    }
  }

  lemma JoinedPath(dir: string, name: string)
    requires dir != "" && name != "" && !Rooted(name) && Components(name) != [] && StaysInside(Components(name))
    ensures Join(dir, name) == if Rooted(dir) then "/" + Slashed(Components(dir) + Components(name))
                               else Slashed(Components(dir) + Components(name))
  {
    JoinComponents(dir, name);
    CleanIdempotent(dir + "/" + name);
    ComponentsShape(dir + "/" + name);
  }

  /** Among relative names free of backslash and NUL, the accepted ones are those that stay inside every directory. */
  lemma SafeIffAlwaysInside(name: string)
    requires name != "" && '\\' !in name && '\0' !in name && !Rooted(name)
    ensures IsSafeOutputName(name) <==> forall dir | dir != "" :: StrictlyInside(dir, Join(dir, name))
  {
    SafeIff(name);
    if IsSafeOutputName(name) {
      forall dir | dir != "" ensures StrictlyInside(dir, Join(dir, name)) {
        SafeNameStaysInside(dir, name);
      }
    } else {
      var here := Join(".", name);
      CleanIdempotent("." + "/" + name);
      SplitSlash(".", name);
      SplitPlain(".");
      LeadingNothingVanishes(".", Split(name), false);
      assert Components(here) == Components(name);
      RootAndHere();
      assert !StrictlyInside(".", here);
    }
  }

  lemma {:induction false} CommonPrefixOfExtension(a: Parts, b: Parts)
    ensures CommonPrefix(a, a + b) == |a|
  {
    if a != [] {
      assert (a + b)[1..] == a[1..] + b;
      CommonPrefixOfExtension(a[1..], b);
    }
  }

  lemma RelOfExtension(dir: string, path: string, more: Parts)
    requires Rooted(path) == Rooted(dir) && Components(path) == Components(dir) + more
    ensures RelPath(Clean(dir), path) == Rel(if Slashed(more) == "" then "." else Slashed(more))
  {
    var d := Components(dir);
    CleanIdempotent(dir);
    CommonPrefixOfExtension(d, more);
    assert d[|d|..] == [] && (d + more)[|d|..] == more;
    assert seq(|d| - |d|, _ => "..") + more == more;
  }

  lemma DotsAtFront(parts: Parts)
    requires parts != [] && '/' !in parts[0]
    ensures HasPrefix(Slashed(parts), "..") <==> HasPrefix(parts[0], "..")
  {
    var s := Slashed(parts);
    assert parts[0] <= s;
    if |parts| > 1 && |parts[0]| < 2 {
      assert s[|parts[0]|] == '/';
    }
  }

  /**
   The second test before unpacking a zip member is not needed for containment, and it
   refuses exactly the safe members whose first component merely begins with two dots.
   */
  lemma ExtractedIff(destDir: string, member: string)
    requires destDir != ""
    ensures IsExtracted(destDir, member) <==> IsSafeOutputName(member) && !HasPrefix(Components(member)[0], "..")
    ensures IsExtracted(destDir, member) ==> StrictlyInside(destDir, Join(destDir, member))
  {
    if IsSafeOutputName(member) {
      SafeNameStaysInside(destDir, member);
      SafeIff(member);
      RelOfExtension(destDir, Join(destDir, member), Components(member));
      ComponentsShape(member);
      DotsAtFront(Components(member));
    } else {
      SafeIff(member);
    }
  }

  /** For example "..notes" is safe, and yet not unpacked. */
  lemma DottedMemberSkipped(destDir: string, rest: string)
    requires destDir != "" && rest != "" && '/' !in rest && '\\' !in rest && '\0' !in rest
    ensures IsSafeOutputName(".." + rest) && !IsExtracted(destDir, ".." + rest)
  {
    var name := ".." + rest;
    assert name[0] == '.' && |name| > 2;
    SplitPlain(name);
    assert Split(name) == [name] && [name][..0] == [];
    assert Reduce([], false) == [] && Reduce([name], false) == [name];
    SafeIff(name);
    ExtractedIff(destDir, name);
  }
}
