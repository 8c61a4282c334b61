/** What the export scripts do to the local file system, and how Python's statement
    sequencing, `try`/`except` and `for` loops combine those effects. */
module Effects {

  /** One `open(path, "w")` followed by writing `content`. */
  datatype FileWrite = FileWrite(path: string, content: string)

  /** The observable effect of running a piece of a script: the directories it creates
      (`mkdir(parents=True, exist_ok=True)`), the files it writes in order, how much it adds
      to the script's exported-items counter, and whether it ends by raising an exception
      that it does not catch itself. */
  datatype Effect = Effect(dirs: seq<string>, writes: seq<FileWrite>, exported: nat, raised: bool)

  const Skip := Effect([], [], 0, false)
  const Raise := Effect([], [], 0, true)
  const Count := Effect([], [], 1, false)

  function MakeDir(dir: string): Effect
  {
    Effect([dir], [], 0, false)
  }

  function Write(path: string, content: string): Effect
  {
    Effect([], [FileWrite(path, content)], 0, false)
  }

  /** Statement sequencing: once `a` raises, `b` does not run. */
  function Then(a: Effect, b: Effect): Effect
  {
    if a.raised then a
    else Effect(a.dirs + b.dirs, a.writes + b.writes, a.exported + b.exported, b.raised)
  }

  /** `try: a` / `except Exception: <print>`: everything `a` did stays done. */
  function Catch(a: Effect): Effect
  {
    a.(raised := false)
  }

  /** `for x in xs: body(x)`: an uncaught exception leaves the loop. */
  function ForEach<T>(xs: seq<T>, body: T -> Effect): Effect
  {
    if xs == [] then Skip else Then(body(xs[0]), ForEach(xs[1..], body))
  }

  lemma ThenAssoc(a: Effect, b: Effect, c: Effect)
    ensures Then(Then(a, b), c) == Then(a, Then(b, c))
  {
  }

  /** Running one more item at the end of a loop that has not raised. */
  lemma {:induction false} ForEachSnoc<T>(xs: seq<T>, x: T, body: T -> Effect)
    ensures ForEach(xs + [x], body) == Then(ForEach(xs, body), body(x))
  {
    if xs == [] {
      assert xs + [x] == [x];
      assert ForEach([x], body) == Then(body(x), Skip);
    } else {
      assert (xs + [x])[0] == xs[0];
      assert (xs + [x])[1..] == xs[1..] + [x];
      ForEachSnoc(xs[1..], x, body);
      ThenAssoc(body(xs[0]), ForEach(xs[1..], body), body(x));
    }
  }

  lemma ForEachPrefix<T>(xs: seq<T>, i: nat, body: T -> Effect)
    requires i < |xs|
    ensures ForEach(xs[..i + 1], body) == Then(ForEach(xs[..i], body), body(xs[i]))
  {
    assert xs[..i + 1] == xs[..i] + [xs[i]];
    ForEachSnoc(xs[..i], xs[i], body);
  }

  /** Once a prefix of the loop has raised, the rest of the loop does not run. */
  lemma {:induction false} ForEachStopsAtRaise<T>(xs: seq<T>, j: nat, body: T -> Effect)
    requires j <= |xs| && ForEach(xs[..j], body).raised
    ensures ForEach(xs, body) == ForEach(xs[..j], body)
    decreases |xs| - j
  {
    if j < |xs| {
      ForEachPrefix(xs, j, body);
      ForEachStopsAtRaise(xs, j + 1, body);
    } else {
      assert xs[..j] == xs;
    }
  }

  /** A loop whose body never raises does not raise, and it makes the sum of the bodies' writes. */
  lemma {:induction false} ForEachNoRaise<T>(xs: seq<T>, body: T -> Effect)
    requires forall x :: x in xs ==> !body(x).raised
    ensures !ForEach(xs, body).raised
    ensures |ForEach(xs, body).writes| == SumWrites(xs, body)
  {
    if xs != [] {
      ForEachNoRaise(xs[1..], body);
    }
  }

  function SumWrites<T>(xs: seq<T>, body: T -> Effect): nat
  {
    if xs == [] then 0 else |body(xs[0]).writes| + SumWrites(xs[1..], body)
  }

  /** Counting an item after a step that did not raise changes only the counter. */
  lemma ThenCount(e: Effect)
    requires !e.raised
    ensures Then(e, Count) == e.(exported := e.exported + 1)
  {
    assert e.dirs + [] == e.dirs;
    assert e.writes + [] == e.writes;
  }

  /** `try: n = f()` / `total += n` / `except Exception: <print>`: the items a call counted
      before it raised are lost with its return value, what it wrote stays written. */
  function CatchCount(e: Effect): Effect
  {
    Effect(e.dirs, e.writes, if e.raised then 0 else e.exported, false)
  }

  /** One more loop iteration, performed after a prefix that has not raised; when the
      iteration raises, the loop ends there. */
  lemma ForEachStep<T>(dirs0: set<string>, files0: map<string, string>,
                       dirs1: set<string>, files1: map<string, string>,
                       dirs2: set<string>, files2: map<string, string>,
                       xs: seq<T>, i: nat, body: T -> Effect)
    requires i < |xs|
    requires Performed(dirs0, files0, dirs1, files1, ForEach(xs[..i], body)) && !ForEach(xs[..i], body).raised
    requires Performed(dirs1, files1, dirs2, files2, body(xs[i]))
    ensures Performed(dirs0, files0, dirs2, files2, ForEach(xs[..i + 1], body))
    ensures ForEach(xs[..i + 1], body).exported == ForEach(xs[..i], body).exported + body(xs[i]).exported
    ensures ForEach(xs[..i + 1], body).raised == body(xs[i]).raised
    ensures body(xs[i]).raised ==> ForEach(xs, body) == ForEach(xs[..i + 1], body)
  {
    ForEachPrefix(xs, i, body);
    PerformedThen(dirs0, files0, dirs1, files1, dirs2, files2, ForEach(xs[..i], body), body(xs[i]));
    if body(xs[i]).raised {
      ForEachStopsAtRaise(xs, i + 1, body);
    }
  }

  // ---------------------------------------------------------------------------
  // The exported-items counter against the `.html` writes made (a path written twice counts twice).

  predicate EndsWith(s: string, suffix: string)
  {
    |s| >= |suffix| && s[|s| - |suffix|..] == suffix
  }

  /** How many of the writes create an `.html` file. */
  function HtmlWrites(ws: seq<FileWrite>): nat
  {
    if ws == [] then 0 else (if EndsWith(ws[0].path, ".html") then 1 else 0) + HtmlWrites(ws[1..])
  }

  lemma {:induction false} HtmlWritesAppend(a: seq<FileWrite>, b: seq<FileWrite>)
    ensures HtmlWrites(a + b) == HtmlWrites(a) + HtmlWrites(b)
  {
    if a == [] {
      assert a + b == b;
    } else {
      assert (a + b)[0] == a[0];
      assert (a + b)[1..] == a[1..] + b;
      HtmlWritesAppend(a[1..], b);
    }
  }

  /** The counter equals the number of `.html` writes. */
  predicate Counted(e: Effect)
  {
    e.exported == HtmlWrites(e.writes)
  }

  lemma CountedThen(a: Effect, b: Effect)
    requires Counted(a) && Counted(b)
    ensures Counted(Then(a, b))
  {
    HtmlWritesAppend(a.writes, b.writes);
  }

  /** Writing a page and counting it, as every exporter does. */
  lemma CountedPage(base: string, content: string)
    ensures Counted(Then(Write(base + ".html", content), Count))
  {
    assert (base + ".html")[|base|..] == ".html";
    assert [FileWrite(base + ".html", content)] + [] == [FileWrite(base + ".html", content)];
  }

  /** Writing the raw `.json` file, which is not counted. */
  lemma CountedJson(base: string, content: string)
    ensures Counted(Write(base + ".json", content))
  {
    var p := base + ".json";
    assert p[|p| - 5..] == ".json";
    assert p[|p| - 5..][1] != ".html"[1];
  }

  lemma {:induction false} CountedForEach<T>(xs: seq<T>, body: T -> Effect)
    requires forall k :: 0 <= k < |xs| ==> Counted(body(xs[k]))
    ensures Counted(ForEach(xs, body))
  {
    if xs != [] {
      assert Counted(body(xs[0]));
      assert forall k :: 0 <= k < |xs[1..]| ==> xs[1..][k] == xs[k + 1];
      CountedForEach(xs[1..], body);
      CountedThen(body(xs[0]), ForEach(xs[1..], body));
    }
  }

  /** The file map after performing `ws` in order. */
  function ApplyWrites(files: map<string, string>, ws: seq<FileWrite>): map<string, string>
    decreases |ws|
  {
    if ws == [] then files else ApplyWrites(files[ws[0].path := ws[0].content], ws[1..])
  }

  lemma {:induction false} ApplyWritesAppend(files: map<string, string>, a: seq<FileWrite>, b: seq<FileWrite>)
    ensures ApplyWrites(files, a + b) == ApplyWrites(ApplyWrites(files, a), b)
    decreases |a|
  {
    if a == [] {
      assert a + b == b;
    } else {
      assert (a + b)[0] == a[0];
      assert (a + b)[1..] == a[1..] + b;
      ApplyWritesAppend(files[a[0].path := a[0].content], a[1..], b);
    }
  }

  /** The two ends of `ApplyWritesLast`: a path no write touches, and a path the final
      write goes to. */
  lemma {:induction false} ApplyWritesEnds(files: map<string, string>, ws: seq<FileWrite>, p: string)
    ensures (forall k :: 0 <= k < |ws| ==> ws[k].path != p) ==>
      (p in ApplyWrites(files, ws) <==> p in files) &&
      (p in files ==> ApplyWrites(files, ws)[p] == files[p])
    ensures |ws| > 0 && ws[|ws| - 1].path == p ==>
      p in ApplyWrites(files, ws) && ApplyWrites(files, ws)[p] == ws[|ws| - 1].content
    decreases |ws|
  {
    if ws != [] {
      ApplyWritesEnds(files[ws[0].path := ws[0].content], ws[1..], p);
      if |ws| > 1 {
        assert ws[1..][|ws| - 2] == ws[|ws| - 1];
      }
      if forall k :: 0 <= k < |ws| ==> ws[k].path != p {
        assert ws[0].path != p;
        assert forall k :: 0 <= k < |ws[1..]| ==> ws[1..][k].path != p by {
          forall k | 0 <= k < |ws[1..]| ensures ws[1..][k].path != p {
            assert ws[1..][k] == ws[k + 1];
          }
        }
      }
    }
  }

  /** After performing `ws`, a path holds the content of the last write to it, whether or
      not later writes go to other paths, and a path no write touches keeps what it had. */
  lemma ApplyWritesLast(files: map<string, string>, ws: seq<FileWrite>, p: string)
    ensures (forall k :: 0 <= k < |ws| ==> ws[k].path != p) ==>
      (p in ApplyWrites(files, ws) <==> p in files) &&
      (p in files ==> ApplyWrites(files, ws)[p] == files[p])
    ensures forall k :: 0 <= k < |ws| && ws[k].path == p && (forall j :: k < j < |ws| ==> ws[j].path != p) ==>
      p in ApplyWrites(files, ws) && ApplyWrites(files, ws)[p] == ws[k].content
  {
    ApplyWritesEnds(files, ws, p);
    forall k | 0 <= k < |ws| && ws[k].path == p && (forall j :: k < j < |ws| ==> ws[j].path != p)
      ensures p in ApplyWrites(files, ws) && ApplyWrites(files, ws)[p] == ws[k].content
    {
      // Split after the write at `k`: it ends the first half, and the second half leaves `p` alone.
      var a, b := ws[..k + 1], ws[k + 1..];
      assert a + b == ws;
      ApplyWritesAppend(files, a, b);
      assert a[|a| - 1] == ws[k];
      ApplyWritesEnds(files, a, p);
      assert forall j :: 0 <= j < |b| ==> b[j].path != p by {
        forall j | 0 <= j < |b| ensures b[j].path != p {
          assert b[j] == ws[k + 1 + j];
        }
      }
      ApplyWritesEnds(ApplyWrites(files, a), b, p);
    }
  }

  function DirSet(ds: seq<string>): set<string>
  {
    set d | d in ds
  }

  /** The file store went from (`dirs0`, `files0`) to (`dirs1`, `files1`) by performing `e`. */
  ghost predicate Performed(dirs0: set<string>, files0: map<string, string>,
                            dirs1: set<string>, files1: map<string, string>, e: Effect)
  {
    dirs1 == dirs0 + DirSet(e.dirs) && files1 == ApplyWrites(files0, e.writes)
  }

  lemma PerformedSkip(dirs: set<string>, files: map<string, string>)
    ensures Performed(dirs, files, dirs, files, Skip)
  {
  }

  lemma PerformedThen(dirs0: set<string>, files0: map<string, string>,
                      dirs1: set<string>, files1: map<string, string>,
                      dirs2: set<string>, files2: map<string, string>, a: Effect, b: Effect)
    requires Performed(dirs0, files0, dirs1, files1, a) && !a.raised
    requires Performed(dirs1, files1, dirs2, files2, b)
    ensures Performed(dirs0, files0, dirs2, files2, Then(a, b))
  {
    ApplyWritesAppend(files0, a.writes, b.writes);
    assert DirSet(a.dirs + b.dirs) == DirSet(a.dirs) + DirSet(b.dirs);
  }

  /** The local file system as the scripts see it: created directories and file contents. */
  class FileStore {
    var dirs: set<string>
    var files: map<string, string>

    constructor ()
      ensures dirs == {} && files == map[]
    {
      dirs := {};
      files := map[];
    }

    /** `pathlib.Path(dir).mkdir(parents=True, exist_ok=True)`. */
    method MakeDirs(dir: string)
      modifies this
      ensures Performed(old(dirs), old(files), dirs, files, MakeDir(dir))
    {
      dirs := dirs + {dir};
    }

    /** `with open(path, "w") as f: f.write(content)`. */
    method WriteText(path: string, content: string)
      modifies this
      ensures Performed(old(dirs), old(files), dirs, files, Write(path, content))
    {
      files := files[path := content];
    }
  }
}
