/** How a registered tool path becomes the executable that runs: the iterative trusted walk, pathname
    resolution as POSIX defines it, and the directory checks that cache their verdicts. */
module TrustedWalk {

  type Name = string
  /** A real path: the component names below `/`, none of them a symbolic link. */
  type Path = seq<Name>

  /** The part of an lstat result the checks read. A link carries the components of its text, split at '/'. */
  datatype Node =
    | Dir(perm: Perm)
    | Link(perm: Perm, absolute: bool, text: seq<Name>)
    | Regular(perm: Perm)
    | Special(perm: Perm)

  datatype Perm = Perm(trustedOwner: bool, othersWrite: bool, sticky: bool, ownerExec: bool)

  type Fs = map<Path, Node>

  predicate IsDir(fs: Fs, p: Path) {
    p == [] || (p in fs && fs[p].Dir?)
  }

  /** A directory tree: whatever exists, exists in a directory. */
  ghost predicate IsTree(fs: Fs) {
    forall p <- fs :: p != [] && IsDir(fs, p[..|p| - 1])
  }

  function Parent(p: Path): Path {
    if p == [] then [] else p[..|p| - 1]
  }

  /** A trusted-owner entry inside this directory cannot be renamed or unlinked by editors. */
  predicate ReplacementResistant(perm: Perm) {
    perm.trustedOwner && (!perm.othersWrite || perm.sticky)
  }

  predicate ExecutableFile(node: Node) {
    node.Regular? && node.perm.trustedOwner && !node.perm.othersWrite && node.perm.ownerExec
  }

  // ---------------------------------------------------------------- resolution, by definition

  /** An empty component or '.'. */
  predicate Void(name: Name) {
    name == "" || name == "."
  }

  predicate Clean(names: seq<Name>) {
    forall i :: 0 <= i < |names| ==> !Void(names[i])
  }

  /** The path library drops empty and '.' components wherever they stand. */
  function Parts(text: seq<Name>): (parts: seq<Name>)
    ensures Clean(parts)
  {
    if text == [] then []
    else if Void(text[0]) then Parts(text[1..])
    else [text[0]] + Parts(text[1..])
  }

  /** `strict`: refuse what the trusted walk refuses on its way. `loose`: read a link's text through `Parts`. */
  datatype Mode = Mode(strict: bool, loose: bool)

  const POSIX := Mode(false, false)
  const TRUSTED := Mode(true, true)

  function TextOf(node: Node, mode: Mode): seq<Name>
    requires node.Link?
  {
    if mode.loose then Parts(node.text) else node.text
  }

  datatype Outcome = Found(path: Path, left: nat) | Fail

  /** Pathname resolution: each component is looked up in the directory reached so far; the text of a
      symbolic link is itself resolved, from the directory that holds the link, before the rest of the
      pathname is; `left` is the number of links that may still be followed. */
  function Resolve(fs: Fs, mode: Mode, dir: Path, names: seq<Name>, left: nat): (r: Outcome)
    ensures r.Found? ==> r.left <= left
    decreases left, |names|, 1
  {
    if names == [] then Found(dir, left)
    else
      var rest := names[1..];
      if Void(names[0]) then Resolve(fs, mode, dir, rest, left)
      else if names[0] == ".." then
        if mode.strict && dir == [] then Fail else Resolve(fs, mode, Parent(dir), rest, left)
      else
        var entry := dir + [names[0]];
        if entry !in fs then Fail
        else match fs[entry]
          case Link(perm, absolute, _) =>
            if left == 0 || (mode.strict && !perm.trustedOwner) then Fail
            else
              var target := Resolve(fs, mode, if absolute then [] else dir, TextOf(fs[entry], mode), left - 1);
              if target.Fail? then Fail else Onward(fs, mode, target.path, rest, target.left)
          case Dir(perm) =>
            if mode.strict && !ReplacementResistant(perm) then Fail else Onward(fs, mode, entry, rest, left)
          case _ => Onward(fs, mode, entry, rest, left)
  }

  /** Goes on from an object: only a directory can have a rest, be it a trailing slash. */
  function Onward(fs: Fs, mode: Mode, from: Path, rest: seq<Name>, left: nat): (r: Outcome)
    ensures r.Found? ==> r.left <= left
    decreases left, |rest|, 2
  {
    if rest == [] then Found(from, left)
    else if IsDir(fs, from) then Resolve(fs, mode, from, rest, left)
    else Fail
  }

  // ---------------------------------------------------------------- the walk

  datatype Result = Ok(path: Path) | Refused

  /** The outcome the trusted walk must have: a resolution whose end is a file that may be executed. */
  function Trusted(fs: Fs, names: seq<Name>): Result {
    match Resolve(fs, TRUSTED, [], names, MAX_LINK_HOPS)
    case Found(p, _) => if p in fs && ExecutableFile(fs[p]) then Ok(p) else Refused
    case Fail => Refused
  }

  const MAX_LINK_HOPS: nat := 16

  /** No '', '.' or '..' component: what a canonical path consists of. */
  predicate Canonical(names: seq<Name>) {
    names != [] && forall i :: 0 <= i < |names| ==> !Void(names[i]) && names[i] != ".."
  }

  method ResolveTrustedExecutable(fs: Fs, names: seq<Name>) returns (r: Result)
    requires IsTree(fs)
    ensures r == if Canonical(names) then Trusted(fs, names) else Refused
    ensures r.Ok? ==> TrustedAncestors(fs, r.path)
  {
    hide Resolve, Onward, Parts, Resistant, TrustedAncestors, IsTree;
    if !Canonical(names) {
      return Refused;
    }
    var pending := names;
    var current: Path := [];
    var hops := 0;
    assert Resistant(fs, current) by {
      ResistantRoot(fs);
    }
    while pending != []
      invariant 0 <= hops <= MAX_LINK_HOPS
      invariant IsDir(fs, current) && Resistant(fs, current)
      invariant Clean(pending)
      invariant Resolve(fs, TRUSTED, [], names, MAX_LINK_HOPS)
             == Resolve(fs, TRUSTED, current, pending, MAX_LINK_HOPS - hops)
      decreases MAX_LINK_HOPS - hops, |pending|
    {
      var part := pending[0];
      OneComponent(fs, current, pending, MAX_LINK_HOPS - hops);
      pending := pending[1..];
      if part == ".." {
        if current == [] {
          return Refused;
        }
        ResistantParent(fs, current);
        current := Parent(current);
        continue;
      }
      var candidate := current + [part];
      if candidate !in fs {
        return Refused;
      }
      var info := fs[candidate];
      ResistantChild(fs, current, part);
      match info {
        case Link(perm, absolute, text) =>
          hops := hops + 1;
          if hops > MAX_LINK_HOPS || !perm.trustedOwner {
            return Refused;
          }
          if absolute {
            ResistantRoot(fs);
            current := [];
          }
          pending := Parts(text) + pending;
        case Dir(perm) =>
          if !ReplacementResistant(perm) {
            return Refused;
          }
          current := candidate;
        case _ =>
          if pending != [] || !ExecutableFile(info) {
            return Refused;
          }
          return Ok(candidate);
      }
    }
    AtTheEnd(fs, current, MAX_LINK_HOPS - hops);
    r := Refused;
  }

  lemma AtTheEnd(fs: Fs, current: Path, left: nat)
    requires IsTree(fs) && IsDir(fs, current)
    ensures Resolve(fs, TRUSTED, current, [], left) == Found(current, left)
    ensures current in fs ==> fs[current].Dir?
  {
  }

  /** One component of the flat walk: a link's text is put in front of what is still pending. */
  lemma OneComponent(fs: Fs, current: Path, pending: seq<Name>, left: nat)
    requires IsTree(fs) && IsDir(fs, current) && pending != [] && !Void(pending[0])
    ensures Resolve(fs, TRUSTED, current, pending, left) == FlatStep(fs, current, pending, left)
  {
    var entry := current + [pending[0]];
    if pending[0] != ".." && entry in fs && fs[entry].Link? {
      LinkComponent(fs, current, pending, left);
    }
  }

  function FlatStep(fs: Fs, current: Path, pending: seq<Name>, left: nat): Outcome
    requires pending != []
  {
    var rest := pending[1..];
    var entry := current + [pending[0]];
    if pending[0] == ".." then (if current == [] then Fail else Resolve(fs, TRUSTED, Parent(current), rest, left))
    else if entry !in fs then Fail
    else match fs[entry]
      case Link(perm, absolute, text) =>
        if left == 0 || !perm.trustedOwner then Fail
        else Resolve(fs, TRUSTED, if absolute then [] else current, Parts(text) + rest, left - 1)
      case Dir(perm) =>
        if !ReplacementResistant(perm) then Fail else Resolve(fs, TRUSTED, entry, rest, left)
      case _ => if rest == [] then Found(entry, left) else Fail
  }

  lemma LinkComponent(fs: Fs, current: Path, pending: seq<Name>, left: nat)
    requires IsTree(fs) && IsDir(fs, current) && pending != [] && !Void(pending[0]) && pending[0] != ".."
    requires var entry := current + [pending[0]]; entry in fs && fs[entry].Link?
    ensures Resolve(fs, TRUSTED, current, pending, left) == FlatStep(fs, current, pending, left)
  {
    var node := fs[current + [pending[0]]];
    if left > 0 && node.perm.trustedOwner {
      Concatenation(fs, TRUSTED, if node.absolute then [] else current, Parts(node.text), pending[1..], left - 1);
    }
  }

  /** The directory and all its ancestors below `/` passed the trust test. */
  ghost predicate Resistant(fs: Fs, p: Path) {
    forall i :: 0 < i <= |p| ==> p[..i] in fs && fs[p[..i]].Dir? && ReplacementResistant(fs[p[..i]].perm)
  }

  /** Every proper ancestor below `/` is a real directory that passed the trust test. */
  ghost predicate TrustedAncestors(fs: Fs, p: Path) {
    forall i :: 0 < i < |p| ==> p[..i] in fs && fs[p[..i]].Dir? && ReplacementResistant(fs[p[..i]].perm)
  }

  lemma ResistantRoot(fs: Fs)
    ensures Resistant(fs, [])
  {
  }

  lemma ResistantParent(fs: Fs, p: Path)
    requires Resistant(fs, p)
    ensures Resistant(fs, Parent(p)) && IsDir(fs, Parent(p))
  {
    assert forall i :: 0 < i < |p| ==> Parent(p)[..i] == p[..i];
    assert |p| > 1 ==> p[..|p| - 1] == Parent(p);
  }

  lemma ResistantChild(fs: Fs, p: Path, name: Name)
    requires Resistant(fs, p)
    ensures TrustedAncestors(fs, p + [name])
    ensures p + [name] in fs && fs[p + [name]].Dir? && ReplacementResistant(fs[p + [name]].perm) ==>
              Resistant(fs, p + [name])
  {
    assert (p + [name])[..|p| + 1] == p + [name];
    assert forall i :: 0 < i <= |p| ==> (p + [name])[..i] == p[..i];
  }

  /** Resolving a concatenation is resolving the front and going on with the back: why a flat list of
      pending components computes the nested definition. */
  lemma {:induction false} Concatenation(fs: Fs, mode: Mode, dir: Path, front: seq<Name>, back: seq<Name>, left: nat)
    requires IsTree(fs) && IsDir(fs, dir)
    ensures Resolve(fs, mode, dir, front + back, left)
         == match Resolve(fs, mode, dir, front, left)
            case Found(p, k) => Onward(fs, mode, p, back, k)
            case Fail => Fail
    decreases left, |front|, 1
  {
    if front == [] {
      assert front + back == back;
    } else {
      var rest := front[1..];
      assert (front + back)[1..] == rest + back;
      if Void(front[0]) {
        Concatenation(fs, mode, dir, rest, back, left);
      } else if front[0] == ".." {
        if dir != [] {
          assert IsDir(fs, Parent(dir));
        }
        Concatenation(fs, mode, Parent(dir), rest, back, left);
      } else {
        var entry := dir + [front[0]];
        if entry in fs {
          if fs[entry].Link? {
            if left > 0 {
              var target := Resolve(fs, mode, if fs[entry].absolute then [] else dir,
                                    TextOf(fs[entry], mode), left - 1);
              if target.Found? {
                OnwardConcatenation(fs, mode, target.path, rest, back, target.left);
              }
            }
          } else {
            OnwardConcatenation(fs, mode, entry, rest, back, left);
          }
        }
      }
    }
  }

  lemma {:induction false} OnwardConcatenation(fs: Fs, mode: Mode, from: Path, rest: seq<Name>, back: seq<Name>,
      left: nat)
    requires IsTree(fs)
    ensures Onward(fs, mode, from, rest + back, left)
         == match Onward(fs, mode, from, rest, left)
            case Found(p, k) => Onward(fs, mode, p, back, k)
            case Fail => Fail
    decreases left, |rest|, 2
  {
    if rest == [] {
      assert rest + back == back;
    } else if IsDir(fs, from) {
      Concatenation(fs, mode, from, rest, back, left);
    }
  }

  // ---------------------------------------------------------------- the walk against POSIX

  const LENIENT := Mode(false, true)

  /** The text ends in '/' or in a '.' component: POSIX then asks for a directory, `Parts` forgets it. */
  predicate EndsVoid(text: seq<Name>) {
    text != [] && Void(text[|text| - 1])
  }

  /** The last component of the pathname is, link after link, reached through a text that ends void. */
  predicate Slashed(fs: Fs, dir: Path, names: seq<Name>, left: nat)
    decreases left, |names|
  {
    if names == [] then false
    else
      var rest := names[1..];
      var entry := dir + [names[0]];
      if Void(names[0]) then Slashed(fs, dir, rest, left)
      else if names[0] == ".." then Slashed(fs, Parent(dir), rest, left)
      else if entry !in fs then false
      else if !fs[entry].Link? then Slashed(fs, entry, rest, left)
      else if left == 0 then false
      else
        var base := if fs[entry].absolute then [] else dir;
        if rest == [] then EndsVoid(fs[entry].text) || Slashed(fs, base, Parts(fs[entry].text), left - 1)
        else
          var target := Resolve(fs, LENIENT, base, Parts(fs[entry].text), left - 1);
          target.Found? && Slashed(fs, target.path, rest, target.left)
  }

  /** What the trusted walk reaches, the lenient resolution reaches: its checks only refuse. */
  lemma {:induction false} StrictOnlyRefuses(fs: Fs, dir: Path, names: seq<Name>, left: nat)
    ensures Resolve(fs, TRUSTED, dir, names, left).Found? ==>
              Resolve(fs, LENIENT, dir, names, left) == Resolve(fs, TRUSTED, dir, names, left)
    decreases left, |names|, 1
  {
    if names != [] {
      var rest := names[1..];
      var entry := dir + [names[0]];
      if Void(names[0]) {
        StrictOnlyRefuses(fs, dir, rest, left);
      } else if names[0] == ".." {
        StrictOnlyRefuses(fs, Parent(dir), rest, left);
      } else if entry in fs {
        if !fs[entry].Link? {
          StrictOnward(fs, entry, rest, left);
        } else if left > 0 {
          var base := if fs[entry].absolute then [] else dir;
          StrictOnlyRefuses(fs, base, Parts(fs[entry].text), left - 1);
          var target := Resolve(fs, TRUSTED, base, Parts(fs[entry].text), left - 1);
          if target.Found? {
            StrictOnward(fs, target.path, rest, target.left);
          }
        }
      }
    }
  }

  lemma {:induction false} StrictOnward(fs: Fs, from: Path, rest: seq<Name>, left: nat)
    ensures Onward(fs, TRUSTED, from, rest, left).Found? ==>
              Onward(fs, LENIENT, from, rest, left) == Onward(fs, TRUSTED, from, rest, left)
    decreases left, |rest|, 2
  {
    if rest != [] && IsDir(fs, from) {
      StrictOnlyRefuses(fs, from, rest, left);
    }
  }

  /** Dropping void components changes the outcome only where a trailing one stands after a non-directory. */
  lemma {:induction false} DroppingVoids(fs: Fs, mode: Mode, dir: Path, text: seq<Name>, left: nat)
    requires IsTree(fs) && IsDir(fs, dir)
    ensures Resolve(fs, mode, dir, text, left)
         == match Resolve(fs, mode, dir, Parts(text), left)
            case Found(p, k) => if EndsVoid(text) && !IsDir(fs, p) then Fail else Found(p, k)
            case Fail => Fail
    decreases left, |text|, 1
  {
    if text != [] {
      var rest := text[1..];
      if Void(text[0]) {
        DroppingVoids(fs, mode, dir, rest, left);
      } else {
        assert Parts(text)[0] == text[0] && Parts(text)[1..] == Parts(rest);
        if text[0] == ".." {
          assert IsDir(fs, Parent(dir));
          DroppingVoids(fs, mode, Parent(dir), rest, left);
        } else {
          var entry := dir + [text[0]];
          if entry in fs {
            if !fs[entry].Link? {
              DroppingVoidsOnward(fs, mode, entry, rest, left);
            } else if left > 0 {
              var target := Resolve(fs, mode, if fs[entry].absolute then [] else dir,
                                    TextOf(fs[entry], mode), left - 1);
              if target.Found? {
                DroppingVoidsOnward(fs, mode, target.path, rest, target.left);
              }
            }
          }
        }
      }
    }
  }

  lemma {:induction false} DroppingVoidsOnward(fs: Fs, mode: Mode, from: Path, rest: seq<Name>, left: nat)
    requires IsTree(fs)
    ensures Onward(fs, mode, from, rest, left)
         == match Onward(fs, mode, from, Parts(rest), left)
            case Found(p, k) => if EndsVoid(rest) && !IsDir(fs, p) then Fail else Found(p, k)
            case Fail => Fail
    decreases left, |rest|, 2
  {
    if rest != [] {
      OnlyVoids(rest);
      if IsDir(fs, from) {
        DroppingVoids(fs, mode, from, rest, left);
      }
    }
  }

  lemma {:induction false} OnlyVoids(text: seq<Name>)
    requires text != []
    ensures Parts(text) == [] ==> EndsVoid(text)
  {
    if |text| > 1 {
      OnlyVoids(text[1..]);
    }
  }

  /** The two readings of link texts agree except on a file whose last link text ends void. */
  lemma {:induction false} LenientAgainstPosix(fs: Fs, dir: Path, names: seq<Name>, left: nat)
    requires IsTree(fs) && IsDir(fs, dir)
    ensures Resolve(fs, POSIX, dir, names, left)
         == match Resolve(fs, LENIENT, dir, names, left)
            case Found(p, k) => if Slashed(fs, dir, names, left) && !IsDir(fs, p) then Fail else Found(p, k)
            case Fail => Fail
    decreases left, |names|
  {
    if names != [] {
      var rest := names[1..];
      var entry := dir + [names[0]];
      if Void(names[0]) {
        LenientAgainstPosix(fs, dir, rest, left);
      } else if names[0] == ".." {
        assert IsDir(fs, Parent(dir));
        LenientAgainstPosix(fs, Parent(dir), rest, left);
      } else if entry in fs {
        if !fs[entry].Link? {
          if IsDir(fs, entry) {
            LenientAgainstPosix(fs, entry, rest, left);
          }
        } else if left > 0 {
          LenientLink(fs, dir, names, left);
        }
      }
    }
  }

  lemma {:induction false} LenientLink(fs: Fs, dir: Path, names: seq<Name>, left: nat)
    requires IsTree(fs) && IsDir(fs, dir) && left > 0
    requires names != [] && !Void(names[0]) && names[0] != ".."
    requires dir + [names[0]] in fs && fs[dir + [names[0]]].Link?
    ensures Resolve(fs, POSIX, dir, names, left)
         == match Resolve(fs, LENIENT, dir, names, left)
            case Found(p, k) => if Slashed(fs, dir, names, left) && !IsDir(fs, p) then Fail else Found(p, k)
            case Fail => Fail
    decreases left, 0
  {
    hide Resolve, Slashed, Parts, IsTree;
    var rest := names[1..];
    var node := fs[dir + [names[0]]];
    var base := if node.absolute then [] else dir;
    DroppingVoids(fs, POSIX, base, node.text, left - 1);
    LenientAgainstPosix(fs, base, Parts(node.text), left - 1);
    var target := Resolve(fs, LENIENT, base, Parts(node.text), left - 1);
    var exact := Resolve(fs, POSIX, base, node.text, left - 1);
    assert exact == match target
                    case Found(p, k) =>
                      if (EndsVoid(node.text) || Slashed(fs, base, Parts(node.text), left - 1))
                          && !IsDir(fs, p) then Fail
                      else Found(p, k)
                    case Fail => Fail;
    LinkUnfolds(fs, LENIENT, dir, names, left);
    SlashedLink(fs, dir, names, left);
    LinkUnfolds(fs, POSIX, dir, names, left);
    if target.Found? && rest != [] && IsDir(fs, target.path) {
      LenientAgainstPosix(fs, target.path, rest, target.left);
    }
  }

  lemma SlashedLink(fs: Fs, dir: Path, names: seq<Name>, left: nat)
    requires left > 0 && names != [] && !Void(names[0]) && names[0] != ".."
    requires dir + [names[0]] in fs && fs[dir + [names[0]]].Link?
    ensures var node := fs[dir + [names[0]]];
            var base := if node.absolute then [] else dir;
            var target := Resolve(fs, LENIENT, base, Parts(node.text), left - 1);
            Slashed(fs, dir, names, left)
            == if |names| == 1 then EndsVoid(node.text) || Slashed(fs, base, Parts(node.text), left - 1)
               else target.Found? && Slashed(fs, target.path, names[1..], target.left)
  {
  }

  lemma LinkUnfolds(fs: Fs, mode: Mode, dir: Path, names: seq<Name>, left: nat)
    requires !mode.strict && left > 0 && names != [] && !Void(names[0]) && names[0] != ".."
    requires dir + [names[0]] in fs && fs[dir + [names[0]]].Link?
    ensures Resolve(fs, mode, dir, names, left)
         == match Resolve(fs, mode, if fs[dir + [names[0]]].absolute then [] else dir,
                          TextOf(fs[dir + [names[0]]], mode), left - 1)
            case Found(p, k) => Onward(fs, mode, p, names[1..], k)
            case Fail => Fail
  {
  }

  /** A path the walk returns is what POSIX resolves the input to, exactly when the file was not reached
      through a link text that ends in '/' or '.'. */
  lemma WalkAgainstPosix(fs: Fs, names: seq<Name>, p: Path)
    requires IsTree(fs) && Trusted(fs, names) == Ok(p)
    ensures Slashed(fs, [], names, MAX_LINK_HOPS) ==> Resolve(fs, POSIX, [], names, MAX_LINK_HOPS) == Fail
    ensures !Slashed(fs, [], names, MAX_LINK_HOPS) ==>
              Resolve(fs, POSIX, [], names, MAX_LINK_HOPS).Found?
                  && Resolve(fs, POSIX, [], names, MAX_LINK_HOPS).path == p
  {
    StrictOnlyRefuses(fs, [], names, MAX_LINK_HOPS);
    LenientAgainstPosix(fs, [], names, MAX_LINK_HOPS);
  }

  /** No link text in the filesystem ends in '/' or '.'. */
  ghost predicate TidyLinks(fs: Fs) {
    forall p <- fs :: fs[p].Link? ==> !EndsVoid(fs[p].text)
  }

  lemma {:induction false} TidyIsNeverSlashed(fs: Fs, dir: Path, names: seq<Name>, left: nat)
    requires TidyLinks(fs)
    ensures !Slashed(fs, dir, names, left)
    decreases left, |names|
  {
    if names != [] {
      var rest := names[1..];
      var entry := dir + [names[0]];
      if Void(names[0]) {
        TidyIsNeverSlashed(fs, dir, rest, left);
      } else if names[0] == ".." {
        TidyIsNeverSlashed(fs, Parent(dir), rest, left);
      } else if entry in fs && !fs[entry].Link? {
        TidyIsNeverSlashed(fs, entry, rest, left);
      } else if entry in fs && left > 0 {
        var base := if fs[entry].absolute then [] else dir;
        TidyIsNeverSlashed(fs, base, Parts(fs[entry].text), left - 1);
        var target := Resolve(fs, LENIENT, base, Parts(fs[entry].text), left - 1);
        if target.Found? {
          TidyIsNeverSlashed(fs, target.path, rest, target.left);
        }
      }
    }
  }

  /** A system that follows more links than the walk finds the same object. */
  lemma {:induction false} MoreLinksSameObject(fs: Fs, mode: Mode, dir: Path, names: seq<Name>, left: nat, more: nat)
    ensures Resolve(fs, mode, dir, names, left).Found? ==>
              var found := Resolve(fs, mode, dir, names, left);
              Resolve(fs, mode, dir, names, left + more) == Found(found.path, found.left + more)
    decreases left, |names|, 1
  {
    if names != [] {
      var rest := names[1..];
      var entry := dir + [names[0]];
      if Void(names[0]) {
        MoreLinksSameObject(fs, mode, dir, rest, left, more);
      } else if names[0] == ".." {
        MoreLinksSameObject(fs, mode, Parent(dir), rest, left, more);
      } else if entry in fs {
        if !fs[entry].Link? {
          MoreLinksOnward(fs, mode, entry, rest, left, more);
        } else if left > 0 {
          var base := if fs[entry].absolute then [] else dir;
          MoreLinksSameObject(fs, mode, base, TextOf(fs[entry], mode), left - 1, more);
          var target := Resolve(fs, mode, base, TextOf(fs[entry], mode), left - 1);
          assert left + more - 1 == left - 1 + more;
          if target.Found? {
            MoreLinksOnward(fs, mode, target.path, rest, target.left, more);
          }
        }
      }
    }
  }

  lemma {:induction false} MoreLinksOnward(fs: Fs, mode: Mode, from: Path, rest: seq<Name>, left: nat, more: nat)
    ensures Onward(fs, mode, from, rest, left).Found? ==>
              var found := Onward(fs, mode, from, rest, left);
              Onward(fs, mode, from, rest, left + more) == Found(found.path, found.left + more)
    decreases left, |rest|, 2
  {
    if rest != [] && IsDir(fs, from) {
      MoreLinksSameObject(fs, mode, from, rest, left, more);
    }
  }

  /** On a filesystem without such link texts the walk never returns another file than the system's own
      resolution, whatever number of links (at least 16) that system follows. */
  lemma WalkNamesTheSameFile(fs: Fs, names: seq<Name>, p: Path, symloopMax: nat)
    requires IsTree(fs) && TidyLinks(fs) && symloopMax >= MAX_LINK_HOPS && Trusted(fs, names) == Ok(p)
    ensures Resolve(fs, POSIX, [], names, symloopMax).Found? && Resolve(fs, POSIX, [], names, symloopMax).path == p
  {
    hide Resolve, Slashed, Trusted;
    WalkAgainstPosix(fs, names, p);
    TidyIsNeverSlashed(fs, [], names, MAX_LINK_HOPS);
    MoreLinksSameObject(fs, POSIX, [], names, MAX_LINK_HOPS, symloopMax - MAX_LINK_HOPS);
  }

  /** The side condition is needed: a trusted link to "file/" is walked to the file, which POSIX refuses. */
  lemma SlashedLinkWalksOn()
    ensures var good := Perm(true, false, false, true);
            var fs: Fs := map[["t"] := Link(good, true, ["file", ""]), ["file"] := Regular(good)];
            && IsTree(fs)
            && Trusted(fs, ["t"]) == Ok(["file"])
            && Resolve(fs, POSIX, [], ["t"], MAX_LINK_HOPS) == Fail
  {
    var good := Perm(true, false, false, true);
    var fs: Fs := map[["t"] := Link(good, true, ["file", ""]), ["file"] := Regular(good)];
    assert [] + ["t"] == ["t"] && [] + ["file"] == ["file"];
    assert ["file", ""][1..] == [""] && [""][1..] == [] && Parts([""]) == [];
    assert Parts(["file", ""]) == ["file"];
    assert Resolve(fs, TRUSTED, [], ["file"], 15) == Found(["file"], 15);
    assert Resolve(fs, TRUSTED, [], ["t"], 16) == Found(["file"], 15);
    assert Resolve(fs, POSIX, [], ["file", ""], 15) == Fail;
  }

  // ---------------------------------------------------------------- cached directory checks

  datatype Code = Missing | Symlink | NotDirectory | Replaceable | AclWrite

  datatype Finding = Finding(code: Code, path: Path)

  /** Why the directory check refuses `p`, if it does; extra ACL authority is recorded and goes on. */
  function Verdict(fs: Fs, p: Path): set<Code> {
    if p !in fs then {Missing}
    else if fs[p].Link? then {Symlink}
    else if !fs[p].Dir? then {NotDirectory}
    else if !ReplacementResistant(fs[p].perm) then {Replaceable}
    else {}
  }

  /** The findings of an uncached check of the ancestors from the `i`-th on. */
  ghost function UncachedFindings(fs: Fs, acl: set<Path>, path: Path, i: nat): set<Finding>
    requires 0 < i
    decreases |path| - i
  {
    if i >= |path| then {}
    else
      var p := path[..i];
      if Verdict(fs, p) != {} then set c <- Verdict(fs, p) :: Finding(c, p)
      else (if p in acl then {Finding(AclWrite, p)} else {}) + UncachedFindings(fs, acl, path, i + 1)
  }

  class PathChecker {
    var findings: seq<Finding>
    var checkedAncestors: set<Path>

    /** A cached directory passed, and what its ACL added is among the findings. */
    ghost predicate Valid(fs: Fs, acl: set<Path>)
      reads this
    {
      forall p <- checkedAncestors ::
        Verdict(fs, p) == {} && (p in acl ==> Finding(AclWrite, p) in findings)
    }

    constructor ()
      ensures findings == [] && checkedAncestors == {}
    {
      findings, checkedAncestors := [], {};
    }

    /** Checks every directory above `path`, those already checked excepted: the accumulated findings and the
        verdict are those of a check without the cache. */
    method Ancestors(fs: Fs, acl: set<Path>, path: Path) returns (ok: bool)
      requires Valid(fs, acl)
      modifies this
      ensures Valid(fs, acl)
      ensures old(findings) <= findings
      ensures (set f <- findings) == (set f <- old(findings)) + UncachedFindings(fs, acl, path, 1)
      ensures ok <==> forall i :: 0 < i < |path| ==> Verdict(fs, path[..i]) == {}
    {
      var i := 1;
      while i < |path|
        invariant 1 <= i && Valid(fs, acl) && old(findings) <= findings
        invariant forall j :: 0 < j < i && j < |path| ==> Verdict(fs, path[..j]) == {}
        invariant (set f <- findings) + UncachedFindings(fs, acl, path, i)
               == (set f <- old(findings)) + UncachedFindings(fs, acl, path, 1)
        decreases |path| - i
      {
        var current := path[..i];
        if current !in checkedAncestors {
          var codes := Verdict(fs, current);
          if codes != {} {
            var code :| code in codes;
            findings := findings + [Finding(code, current)];
            return false;
          }
          if current in acl {
            findings := findings + [Finding(AclWrite, current)];
          }
          checkedAncestors := checkedAncestors + {current};
        }
        i := i + 1;
      }
      ok := true;
    }
  }
}
