/** The import combiner: a depth-first walk over files that may import each other in cycles. */
module Combine {
  import opened Options

  datatype Path = Path(dir: string, base: string)

  /** The readable files, and where an import name in a file points. */
  datatype Disk = Disk(files: map<Path, seq<string>>, resolve: (Path, string) -> Path)

  // ----- lines

  predicate IsImport(line: string) { |line| >= 6 && line[..6] == "import" && '<' !in line }

  /** Single quotes and double ones. */
  predicate IsQuote(c: char): (quote: bool)
    ensures quote <==> [c] == "\"" || [c] == "'"
  {
    c == '"' || c == '\''
  }

  /** Index of the first quote at or after i, or the length. */
  function NextQuote(line: string, i: nat): (j: nat)
    requires i <= |line|
    ensures i <= j <= |line| && (j < |line| ==> IsQuote(line[j]))
    ensures forall k :: i <= k < j ==> !IsQuote(line[k])
    decreases |line| - i
  {
    if i == |line| || IsQuote(line[i]) then i else NextQuote(line, i + 1)
  }

  /** The first nonempty run of characters between two quotes. */
  function Quoted(line: string, i: nat): Option<string>
    requires i <= |line|
    decreases |line| - i
  {
    var open := NextQuote(line, i);
    if open == |line| then None
    else
      var close := NextQuote(line, open + 1);
      if close == |line| then None
      else if close == open + 1 then Quoted(line, close)
      else Some(line[open + 1..close])
  }

  /** A nonempty run without quotes, between two quotes. */
  predicate QuotedRun(line: string, a: int, b: int) {
    0 <= a && a + 1 < b < |line| && IsQuote(line[a]) && IsQuote(line[b]) && forall k :: a < k < b ==> !IsQuote(line[k])
  }

  ghost predicate Leftmost(line: string, i: nat, a: int, b: int) {
    i <= a && QuotedRun(line, a, b) && forall c, d :: i <= c < a ==> !QuotedRun(line, c, d)
  }

  /** The import name is the leftmost such run, and there is none exactly when the match fails. */
  lemma {:induction false} QuotedMeans(line: string, i: nat)
    requires i <= |line|
    ensures Quoted(line, i).None? ==> forall a, b :: i <= a ==> !QuotedRun(line, a, b)
    ensures Quoted(line, i).Some? ==>
      exists a, b :: Leftmost(line, i, a, b) && Quoted(line, i).value == line[a + 1..b]
    decreases |line| - i
  {
    var open := NextQuote(line, i);
    if open < |line| {
      var close := NextQuote(line, open + 1);
      if close == open + 1 && close < |line| {
        QuotedMeans(line, close);
        if Quoted(line, close).Some? {
          var a, b :| Leftmost(line, close, a, b) && Quoted(line, close).value == line[a + 1..b];
          assert Leftmost(line, i, a, b);
        }
      } else if close < |line| {
        assert Leftmost(line, i, open, close);
      }
    }
  }

  /** Only the first carriage return is replaced. */
  function SpaceForReturn(line: string): string {
    if line == "" then ""
    else if line[0] == '\r' then " " + line[1..]
    else line[..1] + SpaceForReturn(line[1..])
  }

  function Emitted(line: string): string { if IsImport(line) then "//" + line else SpaceForReturn(line) }

  function Buffer(lines: seq<string>): string {
    if lines == [] then "" else Buffer(lines[..|lines| - 1]) + Emitted(lines[|lines| - 1]) + "\n"
  }

  /** Exactly the first carriage return becomes a space. */
  lemma {:induction false} SpaceKeepsRest(line: string)
    ensures '\r' !in line ==> SpaceForReturn(line) == line
    ensures forall k :: 0 <= k < |line| && line[k] == '\r' && '\r' !in line[..k] ==>
      SpaceForReturn(line) == line[k := ' ']
    ensures |SpaceForReturn(line)| == |line|
  {
    if line != "" && line[0] != '\r' {
      SpaceKeepsRest(line[1..]);
      forall k | 0 <= k < |line| && line[k] == '\r' && '\r' !in line[..k]
        ensures SpaceForReturn(line) == line[k := ' ']
      {
        assert line[1..][k - 1] == '\r' && line[1..][..k - 1] == line[..k][1..];
        assert line[k := ' '] == line[..1] + line[1..][k - 1 := ' '];
      }
    }
  }

  lemma {:induction false} FirstReturn(line: string) returns (k: nat)
    requires '\r' in line
    ensures k < |line| && line[k] == '\r' && '\r' !in line[..k]
  {
    k := 0;
    while line[k] != '\r'
      invariant k < |line| && '\r' !in line[..k]
      decreases |line| - k
    {
      assert line == line[..k] + [line[k]] + line[k + 1..];
      k := k + 1;
    }
  }

  lemma OnlyReturnsChange(line: string)
    ensures var s := SpaceForReturn(line);
      |s| == |line| && forall k :: 0 <= k < |line| ==> s[k] == line[k] || (line[k] == '\r' && s[k] == ' ')
  {
    SpaceKeepsRest(line);
    if '\r' in line { var k := FirstReturn(line); }
  }

  /** No emitted line imports anything: combining a bundle again follows nothing. */
  lemma EmittedImportsNothing(line: string)
    ensures !IsImport(Emitted(line))
  {
    if IsImport(line) {
      assert Emitted(line)[0] == '/';
    } else {
      var s := SpaceForReturn(line);
      OnlyReturnsChange(line);
      if |s| >= 6 && s[..6] == "import" {
        assert forall k :: 0 <= k < 6 ==> s[k] == s[..6][k] && line[k] == s[k];
        assert line[..6] == s[..6];
        var k :| 0 <= k < |line| && line[k] == '<';
        assert s[k] == '<';
      }
    }
  }

  // ----- what a text says, cut at its newlines

  /** The lines of a text, the last one after the last newline. */
  function Cut(text: string): (lines: seq<string>)
    ensures lines != []
  {
    if text == "" then [""]
    else
      var n := |text| - 1;
      var rest := Cut(text[..n]);
      if text[n] == '\n' then rest + [""] else rest[..|rest| - 1] + [rest[|rest| - 1] + [text[n]]]
  }

  /** A source line goes out behind two slashes if it is an import, otherwise with its first carriage return a space. */
  predicate Mirrors(source: string, out: string) {
    if |source| >= 6 && source[..6] == "import" && '<' !in source then out == "//" + source
    else
      && |out| == |source|
      && forall k :: 0 <= k < |source| ==>
           out[k] == if source[k] == '\r' && '\r' !in source[..k] then ' ' else source[k]
  }

  /** One line for each source line, and an empty one after the last newline. */
  predicate MirrorsAll(source: seq<string>, text: string) {
    var lines := Cut(text);
    && |lines| == |source| + 1 && lines[|source|] == ""
    && forall i :: 0 <= i < |source| ==> Mirrors(source[i], lines[i])
  }

  /** What cutting a file at its newlines leaves. */
  predicate NoNewlines(lines: seq<string>) { forall i :: 0 <= i < |lines| ==> '\n' !in lines[i] }

  lemma {:induction false} CutHoldsNone(text: string)
    ensures NoNewlines(Cut(text))
  {
    if text != "" { CutHoldsNone(text[..|text| - 1]); }
  }

  lemma EmittedMirrors(line: string)
    ensures Mirrors(line, Emitted(line))
    ensures '\n' !in line ==> '\n' !in Emitted(line)
  {
    hide SpaceForReturn;
    SpaceKeepsRest(line);
    OnlyReturnsChange(line);
    if '\r' in line {
      var k := FirstReturn(line);
      assert forall i :: k < i < |line| ==> '\r' in line[..i] by {
        forall i | k < i < |line| ensures '\r' in line[..i] { assert line[..i][k] == '\r'; }
      }
    } else {
      assert forall i :: 0 <= i < |line| ==> line[i] != '\r';
    }
  }

  /** Lines with something more at the end of the last. */
  function Grown(lines: seq<string>, more: string): seq<string>
    requires lines != []
  {
    lines[..|lines| - 1] + [lines[|lines| - 1] + more]
  }

  lemma CutChar(text: string, c: char)
    requires c != '\n'
    ensures Cut(text + [c]) == Grown(Cut(text), [c])
  {
    assert (text + [c])[..|text|] == text;
  }

  lemma GrownTwice(lines: seq<string>, more: string, c: char)
    requires lines != []
    ensures Grown(lines, "") == lines
    ensures Grown(Grown(lines, more), [c]) == Grown(lines, more + [c])
  {
    assert lines[|lines| - 1] + more + [c] == lines[|lines| - 1] + (more + [c]);
    assert lines[|lines| - 1] + "" == lines[|lines| - 1];
  }

  lemma {:induction false} CutLine(text: string, line: string)
    requires '\n' !in line
    ensures Cut(text + line) == Grown(Cut(text), line)
  {
    hide Cut, Grown;
    if line == "" {
      assert text + line == text;
      GrownTwice(Cut(text), "", ' ');
    } else {
      var n := |line| - 1;
      CutLine(text, line[..n]);
      CutChar(text + line[..n], line[n]);
      GrownTwice(Cut(text), line[..n], line[n]);
      assert line == line[..n] + [line[n]];
      assert text + line == text + line[..n] + [line[n]];
    }
  }

  lemma CutNewline(text: string)
    ensures Cut(text + "\n") == Cut(text) + [""]
  {
    assert (text + "\n")[..|text|] == text;
  }

  lemma NothingMirrors()
    ensures MirrorsAll([], "")
  {
  }

  lemma LineMirrors(source: seq<string>, text: string, line: string, out: string)
    requires MirrorsAll(source, text) && Mirrors(line, out) && '\n' !in out
    ensures MirrorsAll(source + [line], text + out + "\n")
  {
    hide Mirrors, Cut;
    CutLine(text, out);
    CutNewline(text + out);
    assert Cut(text)[|source|] + out == out;
  }

  /** The text of a file holds its source lines, one by one. */
  lemma {:induction false} BufferMirrors(source: seq<string>)
    requires NoNewlines(source)
    ensures MirrorsAll(source, Buffer(source))
  {
    hide Mirrors, MirrorsAll, Emitted;
    if source != [] {
      var n := |source| - 1;
      assert forall i :: 0 <= i < n ==> source[..n][i] == source[i];
      BufferMirrors(source[..n]);
      EmittedMirrors(source[n]);
      LineMirrors(source[..n], Buffer(source[..n]), source[n], Emitted(source[n]));
      assert source == source[..n] + [source[n]];
    } else {
      NothingMirrors();
    }
  }

  // ----- the import graph

  /** An import line without a quoted name is an error. */
  predicate Unreadable(line: string) { IsImport(line) && Quoted(line, 0).None? }

  predicate Good(disk: Disk, p: Path) {
    p in disk.files && forall i :: 0 <= i < |disk.files[p]| ==> !Unreadable(disk.files[p][i])
  }

  /** Where one line of a file leads, if anywhere. */
  function Lead(disk: Disk, p: Path, line: string): Option<Path> {
    if IsImport(line) && Quoted(line, 0).Some? then Some(disk.resolve(p, Quoted(line, 0).value)) else None
  }

  predicate Imports(disk: Disk, p: Path, q: Path) {
    p in disk.files && exists i :: 0 <= i < |disk.files[p]| && Lead(disk, p, disk.files[p][i]) == Some(q)
  }

  ghost predicate ReachesIn(disk: Disk, p: Path, q: Path, n: nat)
    decreases n
  {
    if n == 0 then p == q else exists w :: ReachesIn(disk, p, w, n - 1) && Imports(disk, w, q)
  }

  ghost predicate Reaches(disk: Disk, p: Path, q: Path) { exists n: nat :: ReachesIn(disk, p, q, n) }

  lemma ReachesSelf(disk: Disk, p: Path)
    ensures Reaches(disk, p, p)
  {
    assert ReachesIn(disk, p, p, 0);
  }

  lemma ReachesOn(disk: Disk, p: Path, q: Path, r: Path)
    requires Reaches(disk, p, q) && Imports(disk, q, r)
    ensures Reaches(disk, p, r)
  {
    var n: nat :| ReachesIn(disk, p, q, n);
    assert ReachesIn(disk, p, r, n + 1);
  }

  lemma NoStep(disk: Disk, p: Path, q: Path)
    ensures ReachesIn(disk, p, q, 0) ==> p == q
  {
  }

  lemma LastStep(disk: Disk, p: Path, q: Path, n: nat) returns (w: Path)
    requires n > 0 && ReachesIn(disk, p, q, n)
    ensures ReachesIn(disk, p, w, n - 1) && Imports(disk, w, q)
  {
    w :| ReachesIn(disk, p, w, n - 1) && Imports(disk, w, q);
  }

  lemma {:induction false} ReachesThrough(disk: Disk, p: Path, q: Path, r: Path, n: nat)
    requires Reaches(disk, p, q) && ReachesIn(disk, q, r, n)
    ensures Reaches(disk, p, r)
    decreases n
  {
    hide Reaches, ReachesIn, Imports;
    if n == 0 {
      NoStep(disk, q, r);
    } else {
      var w := LastStep(disk, q, r, n);
      ReachesThrough(disk, p, q, w, n - 1);
      ReachesOn(disk, p, w, r);
    }
  }

  lemma ReachesVia(disk: Disk, p: Path, q: Path, r: Path)
    requires Reaches(disk, p, q) && Reaches(disk, q, r)
    ensures Reaches(disk, p, r)
  {
    var n: nat :| ReachesIn(disk, q, r, n);
    ReachesThrough(disk, p, q, r, n);
  }

  // ----- what the walk keeps

  predicate HasBase(done: seq<Path>, b: string) { exists j :: 0 <= j < |done| && done[j].base == b }

  predicate BasesDiffer(done: seq<Path>) { forall i, j :: 0 <= i < j < |done| ==> done[i].base != done[j].base }

  /** A file with this base name leads back to p. */
  ghost predicate LoopsBack(disk: Disk, root: Path, b: string, p: Path) {
    exists s: Path :: s.base == b && Reaches(disk, root, s) && Reaches(disk, s, p)
  }

  /** Every import of a file is earlier in the list, or leads back to that file. */
  ghost predicate Ordered(disk: Disk, root: Path, done: seq<Path>) {
    forall k, q :: 0 <= k < |done| && Imports(disk, done[k], q) ==>
      HasBase(done[..k], q.base) || LoopsBack(disk, root, q.base, done[k])
  }

  lemma OrderedAppend(disk: Disk, root: Path, done: seq<Path>, p: Path)
    requires Ordered(disk, root, done)
    requires forall q :: Imports(disk, p, q) ==> HasBase(done, q.base) || LoopsBack(disk, root, q.base, p)
    ensures Ordered(disk, root, done + [p])
  {
    hide Imports, HasBase, LoopsBack;
    var more := done + [p];
    forall k, q | 0 <= k < |more| && Imports(disk, more[k], q)
      ensures HasBase(more[..k], q.base) || LoopsBack(disk, root, q.base, more[k])
    {
      assert more[..k] == done[..k];
      if k == |done| { assert done[..k] == done; }
    }
  }

  lemma HasBaseAppend(done: seq<Path>, p: Path)
    ensures forall b :: HasBase(done + [p], b) <==> HasBase(done, b) || b == p.base
    ensures BasesDiffer(done) && !HasBase(done, p.base) ==> BasesDiffer(done + [p])
  {
    var more := done + [p];
    assert more[|done|] == p;
    forall b | HasBase(done, b) ensures HasBase(more, b) {
      var j :| 0 <= j < |done| && done[j].base == b;
      assert more[j].base == b;
    }
  }

  function Bundle(disk: Disk, done: seq<Path>): seq<(string, string)>
    requires forall k :: 0 <= k < |done| ==> done[k] in disk.files
  {
    seq(|done|, k requires 0 <= k < |done| => (done[k].base, Buffer(disk.files[done[k]])))
  }

  lemma BufferStep(lines: seq<string>, i: nat)
    requires i < |lines|
    ensures Buffer(lines[..i + 1]) == Buffer(lines[..i]) + Emitted(lines[i]) + "\n"
  {
    assert lines[..i + 1][..i] == lines[..i];
  }

  /** A line read without an error, its import begun. */
  predicate LineDone(disk: Disk, p: Path, line: string, names: set<string>) {
    !Unreadable(line) && (Lead(disk, p, line).Some? ==> Lead(disk, p, line).value.base in names)
  }

  ghost predicate LinesDone(disk: Disk, p: Path, lines: seq<string>, n: nat, names: set<string>)
    requires n <= |lines|
  {
    forall k :: 0 <= k < n ==> LineDone(disk, p, lines[k], names)
  }

  lemma NothingDone(disk: Disk, p: Path, lines: seq<string>, names: set<string>)
    ensures LinesDone(disk, p, lines, 0, names) && Buffer([]) == ""
  {
  }

  lemma LinesDoneStep(disk: Disk, p: Path, lines: seq<string>, n: nat, before: set<string>, names: set<string>)
    requires n < |lines| && before <= names
    requires LinesDone(disk, p, lines, n, before) && LineDone(disk, p, lines[n], names)
    ensures LinesDone(disk, p, lines, n + 1, names)
  {
    hide Unreadable, Lead;
  }

  lemma LinesDoneAll(disk: Disk, p: Path, names: set<string>)
    requires p in disk.files && LinesDone(disk, p, disk.files[p], |disk.files[p]|, names)
    ensures Good(disk, p) && forall q :: Imports(disk, p, q) ==> q.base in names
  {
    hide Unreadable, Lead;
  }

  class Combiner {
    const disk: Disk
    ghost const root: Path
    var names: set<string>
    var files: seq<(string, string)>
    /** The paths behind files, and the ones still being read. */
    ghost var done: seq<Path>
    ghost var open: set<Path>

    constructor (disk: Disk, root: Path)
      ensures this.disk == disk && this.root == root
      ensures names == {} && done == [] && open == {} && Valid()
    {
      this.disk, this.root := disk, root;
      names, files, done, open := {}, [], [], {};
    }

    ghost predicate Valid()
      reads this
    {
      && (forall k :: 0 <= k < |done| ==> Good(disk, done[k]) && Reaches(disk, root, done[k]))
      && files == Bundle(disk, done)
      && BasesDiffer(done)
      && Ordered(disk, root, done)
      && (forall p :: p in open ==> p.base in names && !HasBase(done, p.base) && Reaches(disk, root, p))
      && (forall p, q :: p in open && q in open && p.base == q.base ==> p == q)
      && (forall k :: 0 <= k < |done| ==> done[k].base in names)
      && (forall b :: b in names ==> HasBase(done, b) || exists p :: p in open && p.base == b)
      && (forall k, q :: 0 <= k < |done| && Imports(disk, done[k], q) ==> q.base in names)
    }

    /** The base names a walk can still add: what makes it end on cyclic imports. */
    ghost function Unread(): set<string>
      reads this
    {
      (set p | p in disk.files :: p.base) - names
    }

    method Enter(p: Path)
      requires Valid() && p.base !in names && Reaches(disk, root, p)
      modifies `names, `open
      ensures Valid() && names == old(names) + {p.base} && p !in old(open) && open == old(open) + {p}
    {
      hide Reaches, Imports, Ordered, Bundle;
      names := names + {p.base};
      open := open + {p};
    }

    /** An import is read unless a file of its base name has been begun. */
    method Follow(p: Path, q: Path) returns (ok: bool)
      requires Valid() && p in open && Imports(disk, p, q)
      requires forall s :: s in open ==> Reaches(disk, s, p)
      modifies this
      decreases Unread(), 1
      ensures ok ==> Valid() && open == old(open) && names >= old(names) && q.base in names
      ensures ok ==> old(done) <= done
      ensures ok ==> forall k :: |old(done)| <= k < |done| ==> Reaches(disk, p, done[k])
      ensures !ok ==> exists w :: Reaches(disk, root, w) && !Good(disk, w)
    {
      ok := true;
      if q.base !in names {
        forall s | s in open ensures Reaches(disk, s, q) { ReachesOn(disk, s, p, q); }
        hide Reaches, Imports, Good;
        ReachesOn(disk, root, p, q);
        ok := Read(q);
        if ok {
          forall k | |old(done)| <= k < |done| ensures Reaches(disk, p, done[k]) {
            ReachesVia(disk, p, q, done[k]);
          }
        }
      }
    }

    method Read(p: Path) returns (ok: bool)
      requires Valid() && p.base !in names && Reaches(disk, root, p)
      requires forall s :: s in open ==> Reaches(disk, s, p)
      modifies this
      decreases Unread(), 0
      ensures ok ==> Valid() && open == old(open) && names >= old(names) && p.base in names
      ensures ok ==> old(done) < done && done[|done| - 1] == p
      ensures ok ==> forall k :: |old(done)| <= k < |done| ==> Reaches(disk, p, done[k])
      ensures !ok ==> exists w :: Reaches(disk, root, w) && !Good(disk, w)
    {
      hide Valid, Reaches, IsImport, Quoted, Buffer, LinesDone;
      Enter(p);
      if p !in disk.files { return false; }
      var lines := disk.files[p];
      var buffer := "";
      ReachesSelf(disk, p);
      assert lines[..0] == [] && Buffer([]) == "" && LinesDone(disk, p, lines, 0, names) by {
        NothingDone(disk, p, lines, names);
      }
      for i := 0 to |lines|
        invariant Valid() && open == old(open) + {p} && names >= old(names) + {p.base}
        invariant old(done) <= done
        invariant forall k :: |old(done)| <= k < |done| ==> Reaches(disk, p, done[k])
        invariant LinesDone(disk, p, lines, i, names)
        invariant buffer == Buffer(lines[..i])
      {
        var line := lines[i];
        BufferStep(lines, i);
        ghost var before := names;
        if IsImport(line) {
          buffer := buffer + ("//" + line) + "\n";
          var name := Quoted(line, 0);
          if name.None? {
            assert Unreadable(disk.files[p][i]);
            return false;
          }
          assert Lead(disk, p, lines[i]) == Some(disk.resolve(p, name.value));
          var ok := Follow(p, disk.resolve(p, name.value));
          if !ok { return false; }
        } else {
          buffer := buffer + SpaceForReturn(line) + "\n";
        }
        LinesDoneStep(disk, p, lines, i, before, names);
      }
      LinesDoneAll(disk, p, names);
      assert lines[..|lines|] == lines;
      Emit(p, buffer);
      return true;
    }

    /** A file goes out once all its imports are out or still open. */
    method Emit(p: Path, buffer: string)
      requires Valid() && p in open && Good(disk, p) && buffer == Buffer(disk.files[p])
      requires forall s :: s in open ==> Reaches(disk, s, p)
      requires forall q :: Imports(disk, p, q) ==> q.base in names
      modifies this
      ensures Valid() && open == old(open) - {p} && names == old(names) && done == old(done) + [p]
    {
      hide Reaches, Imports, Buffer, Ordered, HasBase, BasesDiffer;
      HasBaseAppend(done, p);
      forall q | Imports(disk, p, q) ensures HasBase(done, q.base) || LoopsBack(disk, root, q.base, p) {
        if !HasBase(done, q.base) {
          var s :| s in open && s.base == q.base;
        }
      }
      OrderedAppend(disk, root, done, p);
      files := files + [(p.base, buffer)];
      done := done + [p];
      open := open - {p};
    }
  }

  // ----- the bundle of a root

  /** All a completed walk guarantees about the paths it emitted. */
  ghost predicate Walked(disk: Disk, root: Path, done: seq<Path>) {
    && done != [] && done[|done| - 1] == root
    && (forall k :: 0 <= k < |done| ==> Good(disk, done[k]) && Reaches(disk, root, done[k]))
    && BasesDiffer(done)
    && Ordered(disk, root, done)
    && (forall k, q :: 0 <= k < |done| && Imports(disk, done[k], q) ==> HasBase(done, q.base))
  }

  /** Whether a base name names one reachable file. */
  ghost predicate BasesIdentify(disk: Disk, root: Path) {
    forall p, q :: Reaches(disk, root, p) && Reaches(disk, root, q) && p.base == q.base ==> p == q
  }

  ghost predicate AllGood(disk: Disk, root: Path) { forall p :: Reaches(disk, root, p) ==> Good(disk, p) }

  lemma BundleMirrors(disk: Disk, root: Path, done: seq<Path>)
    requires Walked(disk, root, done)
    ensures forall k :: 0 <= k < |done| ==> done[k] in disk.files
    ensures var bundle := Bundle(disk, done);
      |bundle| == |done| && forall k :: 0 <= k < |done| ==>
        && bundle[k].0 == done[k].base
        && (NoNewlines(disk.files[done[k]]) ==> MirrorsAll(disk.files[done[k]], bundle[k].1))
  {
    hide MirrorsAll, Buffer, NoNewlines, Reaches, Ordered, BasesDiffer, Imports;
    forall k | 0 <= k < |done| && NoNewlines(disk.files[done[k]])
      ensures MirrorsAll(disk.files[done[k]], Buffer(disk.files[done[k]]))
    {
      BufferMirrors(disk.files[done[k]]);
    }
  }

  /**
   * None is an error. It is always a reachable file's fault, and with identifying base
   * names every such file's.
   */
  method CombineFiles(disk: Disk, root: Path) returns (r: Option<seq<(string, string)>>, ghost done: seq<Path>)
    ensures r.Some? ==> Walked(disk, root, done) && r.value == Bundle(disk, done)
    ensures r.Some? ==> |r.value| == |done| && forall k :: 0 <= k < |done| ==>
      && r.value[k].0 == done[k].base
      && (NoNewlines(disk.files[done[k]]) ==> MirrorsAll(disk.files[done[k]], r.value[k].1))
    ensures AllGood(disk, root) ==> r.Some?
    ensures BasesIdentify(disk, root) ==> (r.Some? <==> AllGood(disk, root))
  {
    hide Reaches, Good, Imports, MirrorsAll, NoNewlines;
    var walk := new Combiner(disk, root);
    ReachesSelf(disk, root);
    var ok := walk.Read(root);
    if !ok { return None, []; }
    done := walk.done;
    if BasesIdentify(disk, root) { WalkReachesAll(disk, root, done); }
    BundleMirrors(disk, root, done);
    return Some(walk.files), done;
  }

  lemma {:induction false} WalkClosed(disk: Disk, root: Path, done: seq<Path>, p: Path, n: nat)
    requires Walked(disk, root, done) && BasesIdentify(disk, root) && ReachesIn(disk, root, p, n)
    ensures p in done
    decreases n
  {
    hide ReachesIn, Imports, Good;
    if n == 0 {
      NoStep(disk, root, p);
    } else {
      var w := LastStep(disk, root, p, n);
      WalkClosed(disk, root, done, w, n - 1);
      var j :| 0 <= j < |done| && done[j].base == p.base;
      assert Reaches(disk, root, p);
    }
  }

  /** With identifying base names, the bundle holds each reachable file exactly once. */
  lemma WalkReachesAll(disk: Disk, root: Path, done: seq<Path>)
    requires Walked(disk, root, done) && BasesIdentify(disk, root)
    ensures forall p :: Reaches(disk, root, p) <==> p in done
    ensures forall i, j :: 0 <= i < j < |done| ==> done[i] != done[j]
  {
    forall p | Reaches(disk, root, p)
      ensures p in done
    {
      var n: nat :| ReachesIn(disk, root, p, n);
      WalkClosed(disk, root, done, p, n);
    }
  }

  /** No reachable file imports one that leads back to it. */
  ghost predicate Acyclic(disk: Disk, root: Path) {
    forall p, q :: Reaches(disk, root, p) && Imports(disk, p, q) ==> !Reaches(disk, q, p)
  }

  /** An import comes earlier than its importer, unless it leads back to it. */
  lemma ImportsFirst(disk: Disk, root: Path, done: seq<Path>, i: nat, j: nat)
    requires Walked(disk, root, done) && BasesIdentify(disk, root)
    requires i < |done| && j < |done| && Imports(disk, done[i], done[j])
    ensures j < i || Reaches(disk, done[j], done[i])
  {
    hide Reaches, Imports, Good;
    var q := done[j];
    if HasBase(done[..i], q.base) {
      var k :| 0 <= k < |done[..i]| && done[..i][k].base == q.base;
      assert done[k].base == done[j].base;
    } else {
      var s: Path :| s.base == q.base && Reaches(disk, root, s) && Reaches(disk, s, done[i]);
      assert s == q;
    }
  }

  /** On acyclic imports the bundle is a topological order: each file follows everything it leads to. */
  lemma {:induction false} TopologicalOrder(disk: Disk, root: Path, done: seq<Path>, i: nat, j: nat, n: nat)
    requires Walked(disk, root, done) && BasesIdentify(disk, root) && Acyclic(disk, root)
    requires i < |done| && j < |done| && ReachesIn(disk, done[i], done[j], n)
    ensures j < i || (i == j && n == 0)
    decreases n
  {
    hide Walked, BasesIdentify, Acyclic, Good, Reaches, ReachesIn, Imports;
    if n == 0 {
      NoStep(disk, done[i], done[j]);
      assert i == j by { WalkReachesAll(disk, root, done); }
    } else {
      var w := LastStep(disk, done[i], done[j], n);
      InWalk(disk, root, done, i, w, n - 1);
      var k :| 0 <= k < |done| && done[k] == w;
      TopologicalOrder(disk, root, done, i, k, n - 1);
      ImportsFirst(disk, root, done, k, j);
      NoWayBack(disk, root, done, k, j);
    }
  }

  lemma InWalk(disk: Disk, root: Path, done: seq<Path>, i: nat, w: Path, n: nat)
    requires Walked(disk, root, done) && BasesIdentify(disk, root) && i < |done| && ReachesIn(disk, done[i], w, n)
    ensures w in done
  {
    ReachesThrough(disk, root, done[i], w, n);
    WalkReachesAll(disk, root, done);
  }

  lemma NoWayBack(disk: Disk, root: Path, done: seq<Path>, k: nat, j: nat)
    requires Walked(disk, root, done) && Acyclic(disk, root)
    requires k < |done| && j < |done| && Imports(disk, done[k], done[j])
    ensures !Reaches(disk, done[j], done[k])
  {
    assert Reaches(disk, root, done[k]);
  }
}
