/** Writing, appending and creating directories in the sandbox: apart from missing directories above
    it every change stays under the root, files only grow unless overwriting is asked for, and
    repeating a successful call changes nothing. */
module Sandbox {
  import opened Sequences

  /** An absolute, resolved path as its components. */
  type Path = seq<string>

  datatype Node = File(raw: string) | Dir

  type Tree = map<Path, Node>

  datatype Outcome = Ready(reason: string) | Blocked(reason: string) | Failed(reason: string)

  /** `path == root or root in path.parents` */
  predicate IsUnder(path: Path, root: Path) {
    root <= path
  }

  function Parent(path: Path): Path {
    if path == [] then [] else path[..|path| - 1]
  }

  // ---------------------------------------------------------------- text files

  /** What reading a text file returns: every line end becomes a single newline. */
  function ReadText(raw: string): string
    decreases |raw|
  {
    if raw == [] then []
    else if raw[0] != '\r' then [raw[0]] + ReadText(raw[1..])
    else ['\n'] + ReadText(if |raw| > 1 && raw[1] == '\n' then raw[2..] else raw[1..])
  }

  predicate Plain(s: string) {
    forall i :: 0 <= i < |s| ==> s[i] != '\r'
  }

  lemma {:induction false} ReadTextPlain(raw: string)
    ensures Plain(ReadText(raw))
    decreases |raw|
  {
    if raw != [] {
      if raw[0] != '\r' {
        ReadTextPlain(raw[1..]);
      } else {
        ReadTextPlain(if |raw| > 1 && raw[1] == '\n' then raw[2..] else raw[1..]);
      }
    }
  }

  lemma {:induction false} ReadTextAfterPlain(a: string, b: string)
    requires Plain(a)
    ensures ReadText(a + b) == a + ReadText(b)
  {
    if a == [] {
      assert a + b == b;
    } else {
      ReadTextAfterPlain(a[1..], b);
      assert (a + b)[1..] == a[1..] + b;
      assert [a[0]] + (a[1..] + ReadText(b)) == a + ReadText(b);
    }
  }

  /** A file reads back as it was written exactly when it holds no carriage return. */
  lemma ReadTextFaithful(raw: string)
    ensures ReadText(raw) == raw <==> Plain(raw)
  {
    ReadTextPlain(raw);
    if Plain(raw) {
      ReadTextAfterPlain(raw, []);
      assert raw + [] == raw;
    }
  }

  // ---------------------------------------------------------------- effects

  /** Some path on the way to p, p included, is a file. */
  predicate FileOnWay(tree: Tree, p: Path) {
    exists n :: 0 <= n <= |p| && p[..n] in tree && tree[p[..n]].File?
  }

  /** `p.mkdir(parents=True, exist_ok=True)` where no file is in the way. */
  function WithDirs(tree: Tree, p: Path): Tree {
    tree + map n | 0 <= n <= |p| && p[..n] !in tree :: p[..n] := Dir
  }

  /** `write_text_file` */
  function Write(tree: Tree, root: Path, target: Path, content: string, overwrite: bool): (Tree, Outcome) {
    if !IsUnder(target, root) then (tree, Blocked("sandbox_path_required"))
    else if target in tree && !overwrite then
      if tree[target].File? && ReadText(tree[target].raw) == content then (tree, Ready("idempotent_existing_content"))
      else (tree, Blocked("overwrite_requires_explicit_flag"))
    else if FileOnWay(tree, Parent(target)) then (tree, Failed("sandbox_writer_exception"))
    else
      var made := WithDirs(tree, Parent(target));
      if target in made && made[target].Dir? then (made, Failed("sandbox_writer_exception"))
      else (made[target := File(content)],
            if content != "" && ReadText(content) == content then Ready("") else Failed("file_validation_failed"))
  }

  function Line(content: string): string {
    if EndsWith(content, "\n") then content else content + "\n"
  }

  function Gap(before: string): string {
    if EndsWith(before, "\n") || before == "" then "" else "\n"
  }

  /** `append_text_file` */
  function Append(tree: Tree, root: Path, target: Path, content: string): (Tree, Outcome) {
    if !IsUnder(target, root) then (tree, Blocked("sandbox_path_required"))
    else if target !in tree || tree[target].Dir? then (tree, Blocked("file_not_found"))
    else
      var before := ReadText(tree[target].raw);
      if EndsWith(before, Line(content)) then (tree, Ready("idempotent_existing_content"))
      else
        var after := before + Gap(before) + Line(content);
        (tree[target := File(after)],
         if EndsWith(ReadText(after), Line(content)) then Ready("") else Failed("file_validation_failed"))
  }

  /** `create_directory` */
  function MakeDirectory(tree: Tree, root: Path, target: Path): (Tree, Outcome) {
    if !IsUnder(target, root) then (tree, Blocked("sandbox_path_required"))
    else if FileOnWay(tree, target) then (tree, Failed("sandbox_writer_exception"))
    else (WithDirs(tree, target), Ready(""))
  }

  class SandboxWriter {
    const root: Path
    var tree: Tree

    constructor (root: Path, tree: Tree)
      ensures this.root == root && this.tree == tree
    {
      this.root, this.tree := root, tree;
    }

    method WriteTextFile(target: Path, content: string, overwrite: bool) returns (r: Outcome)
      modifies this
      ensures (tree, r) == Write(old(tree), root, target, content, overwrite)
    {
      if !IsUnder(target, root) {
        return Blocked("sandbox_path_required");
      }
      if target in tree && !overwrite {
        if tree[target].File? && ReadText(tree[target].raw) == content {
          return Ready("idempotent_existing_content");
        }
        return Blocked("overwrite_requires_explicit_flag");
      }
      if FileOnWay(tree, Parent(target)) {
        return Failed("sandbox_writer_exception");
      }
      tree := WithDirs(tree, Parent(target));
      if target in tree && tree[target].Dir? {
        return Failed("sandbox_writer_exception");
      }
      tree := tree[target := File(content)];
      var readback := ReadText(tree[target].raw);
      if content == "" || readback != content {
        return Failed("file_validation_failed");
      }
      return Ready("");
    }

    method AppendTextFile(target: Path, content: string) returns (r: Outcome)
      modifies this
      ensures (tree, r) == Append(old(tree), root, target, content)
    {
      if !IsUnder(target, root) {
        return Blocked("sandbox_path_required");
      }
      if target !in tree || tree[target].Dir? {
        return Blocked("file_not_found");
      }
      var before := ReadText(tree[target].raw);
      var suffix := if EndsWith(content, "\n") then content else content + "\n";
      if EndsWith(before, suffix) {
        return Ready("idempotent_existing_content");
      }
      tree := tree[target := File(before + (if EndsWith(before, "\n") || before == "" then "" else "\n") + suffix)];
      var readback := ReadText(tree[target].raw);
      if EndsWith(readback, suffix) {
        return Ready("");
      }
      return Failed("file_validation_failed");
    }

    method CreateDirectory(target: Path) returns (r: Outcome)
      modifies this
      ensures (tree, r) == MakeDirectory(old(tree), root, target)
    {
      if !IsUnder(target, root) {
        return Blocked("sandbox_path_required");
      }
      if FileOnWay(tree, target) {
        return Failed("sandbox_writer_exception");
      }
      tree := WithDirs(tree, target);
      return Ready("");
    }
  }

  // ---------------------------------------------------------------- containment and growth

  /** Nothing outside the root changes, except that missing directories above it may appear. */
  ghost predicate Contained(before: Tree, after: Tree, root: Path) {
    && (forall p :: p in before && !IsUnder(p, root) ==> p in after && after[p] == before[p])
    && (forall p :: p in after && p !in before && !IsUnder(p, root) ==> p < root && after[p].Dir?)
  }

  /** Every file is still there and its old text is a prefix of its new text. */
  ghost predicate Grown(before: Tree, after: Tree) {
    forall p :: p in before ==>
      && p in after && (before[p].Dir? <==> after[p].Dir?)
      && (before[p].File? ==> ReadText(before[p].raw) <= ReadText(after[p].raw))
  }

  lemma DirsContained(tree: Tree, p: Path, root: Path, target: Path)
    requires IsUnder(target, root) && p <= target
    ensures Contained(tree, WithDirs(tree, p), root) && Grown(tree, WithDirs(tree, p))
    ensures forall q :: q in tree ==> q in WithDirs(tree, p) && WithDirs(tree, p)[q] == tree[q]
  {
    var after := WithDirs(tree, p);
    forall q | q in after && q !in tree && !IsUnder(q, root) ensures q < root && after[q].Dir? {
      var n :| 0 <= n <= |p| && q == p[..n];
      assert q == target[..n];
      assert n < |root| by {
        assert |root| <= n ==> root <= q;
      }
      assert q == root[..n];
    }
  }

  lemma WriteContained(tree: Tree, root: Path, target: Path, content: string, overwrite: bool)
    ensures Contained(tree, Write(tree, root, target, content, overwrite).0, root)
    ensures !overwrite ==> Grown(tree, Write(tree, root, target, content, overwrite).0)
  {
    hide ReadText, WithDirs, FileOnWay;
    if IsUnder(target, root) {
      DirsContained(tree, Parent(target), root, target);
    }
  }

  lemma AppendGrows(tree: Tree, root: Path, target: Path, content: string)
    ensures Contained(tree, Append(tree, root, target, content).0, root)
    ensures Grown(tree, Append(tree, root, target, content).0)
  {
    hide ReadText, EndsWith, Line;
    if target in tree && tree[target].File? {
      var before := ReadText(tree[target].raw);
      var rest := Gap(before) + Line(content);
      ReadTextPlain(tree[target].raw);
      ReadTextAfterPlain(before, rest);
      assert before + Gap(before) + Line(content) == before + rest;
    }
  }

  lemma MakeDirectoryContained(tree: Tree, root: Path, target: Path)
    ensures Contained(tree, MakeDirectory(tree, root, target).0, root)
    ensures Grown(tree, MakeDirectory(tree, root, target).0)
  {
    hide WithDirs, FileOnWay;
    if IsUnder(target, root) {
      DirsContained(tree, target, root, target);
    }
  }

  datatype Call =
    | WriteCall(target: Path, content: string, overwrite: bool)
    | AppendCall(target: Path, content: string)
    | MakeDirectoryCall(target: Path)

  function Do(tree: Tree, root: Path, c: Call): (Tree, Outcome) {
    match c
    case WriteCall(target, content, overwrite) => Write(tree, root, target, content, overwrite)
    case AppendCall(target, content) => Append(tree, root, target, content)
    case MakeDirectoryCall(target) => MakeDirectory(tree, root, target)
  }

  function DoAll(tree: Tree, root: Path, calls: seq<Call>): Tree {
    if calls == [] then tree else Do(DoAll(tree, root, calls[..|calls| - 1]), root, calls[|calls| - 1]).0
  }

  lemma DoContained(tree: Tree, root: Path, c: Call)
    ensures Contained(tree, Do(tree, root, c).0, root)
    ensures !(c.WriteCall? && c.overwrite) ==> Grown(tree, Do(tree, root, c).0)
  {
    hide Write, Append, MakeDirectory;
    match c
    case WriteCall(target, content, overwrite) => WriteContained(tree, root, target, content, overwrite);
    case AppendCall(target, content) => AppendGrows(tree, root, target, content);
    case MakeDirectoryCall(target) => MakeDirectoryContained(tree, root, target);
  }

  lemma ContainedTransitive(a: Tree, b: Tree, c: Tree, root: Path)
    requires Contained(a, b, root) && Contained(b, c, root)
    ensures Contained(a, c, root)
  {
  }

  lemma GrownTransitive(a: Tree, b: Tree, c: Tree)
    requires Grown(a, b) && Grown(b, c)
    ensures Grown(a, c)
  {
    hide ReadText;
    forall p | p in a && a[p].File? ensures p in c && c[p].File? && ReadText(a[p].raw) <= ReadText(c[p].raw) {
      assert ReadText(a[p].raw) <= ReadText(b[p].raw) <= ReadText(c[p].raw);
    }
  }

  /** Over every sequence of calls the writer stays inside the sandbox, and as long as no call
      overwrites, every file only grows. */
  lemma {:induction false} CallsContained(tree: Tree, root: Path, calls: seq<Call>)
    ensures Contained(tree, DoAll(tree, root, calls), root)
    ensures (forall i :: 0 <= i < |calls| ==> !(calls[i].WriteCall? && calls[i].overwrite))
        ==> Grown(tree, DoAll(tree, root, calls))
    decreases |calls|
  {
    hide Do, ReadText;
    if calls != [] {
      var init := calls[..|calls| - 1];
      CallsContained(tree, root, init);
      var mid, after := DoAll(tree, root, init), DoAll(tree, root, calls);
      DoContained(mid, root, calls[|calls| - 1]);
      ContainedTransitive(tree, mid, after, root);
      if forall i :: 0 <= i < |calls| ==> !(calls[i].WriteCall? && calls[i].overwrite) {
        assert forall i :: 0 <= i < |init| ==> init[i] == calls[i];
        GrownTransitive(tree, mid, after);
      }
    }
  }

  // ---------------------------------------------------------------- lines

  /** Text that an append adds starts at a line start and ends a line. */
  lemma AppendedAtLineStart(tree: Tree, root: Path, target: Path, content: string)
    requires IsUnder(target, root) && target in tree && tree[target].File?
    requires Append(tree, root, target, content).0 != tree
    ensures var before := ReadText(tree[target].raw);
      var head := before + Gap(before);
      && target in Append(tree, root, target, content).0
      && Append(tree, root, target, content).0[target] == File(head + Line(content))
      && ReadText(head + Line(content)) == head + ReadText(Line(content))
      && (head == "" || EndsWith(head, "\n"))
      && EndsWith(Line(content), "\n")
  {
    var before := ReadText(tree[target].raw);
    var head := before + Gap(before);
    ReadTextPlain(tree[target].raw);
    assert Plain(head);
    ReadTextAfterPlain(head, Line(content));
  }

  /** On the bytes, an append that writes keeps the old file as a prefix exactly when that file has
      no carriage return: line ends are normalised on the way. */
  lemma AppendKeepsBytesIff(tree: Tree, root: Path, target: Path, content: string)
    requires IsUnder(target, root) && target in tree && tree[target].File?
    requires !EndsWith(ReadText(tree[target].raw), Line(content))
    ensures var raw := tree[target].raw;
      raw <= Append(tree, root, target, content).0[target].raw <==> Plain(raw)
  {
    var raw := tree[target].raw;
    var before := ReadText(raw);
    var after := before + Gap(before) + Line(content);
    if Plain(raw) {
      ReadTextFaithful(raw);
      assert after == raw + (Gap(before) + Line(content));
    } else {
      var i := FirstReturn(raw);
      assert after[i] == '\n';
    }
  }

  lemma {:induction false} FirstReturn(raw: string) returns (i: nat)
    requires !Plain(raw)
    ensures i < |raw| && raw[i] == '\r' && i < |ReadText(raw)| && ReadText(raw)[i] == '\n'
    decreases |raw|
  {
    if raw[0] == '\r' {
      i := 0;
    } else {
      i := FirstReturn(raw[1..]);
      i := i + 1;
    }
  }

  // ---------------------------------------------------------------- retries

  /** Repeating a successful write changes nothing and succeeds again. */
  lemma WriteRetry(tree: Tree, root: Path, target: Path, content: string, overwrite: bool)
    requires Write(tree, root, target, content, overwrite).1.Ready?
    ensures var after := Write(tree, root, target, content, overwrite).0;
      && target in after && after[target].File? && ReadText(after[target].raw) == content
      && Write(after, root, target, content, overwrite).0 == after
      && Write(after, root, target, content, overwrite).1.Ready?
  {
    hide ReadText;
    var after := Write(tree, root, target, content, overwrite).0;
    if overwrite {
      NoFileOnWayAfter(tree, root, target, content);
    }
  }

  lemma NoFileOnWayAfter(tree: Tree, root: Path, target: Path, content: string)
    requires !FileOnWay(tree, Parent(target))
    requires var made := WithDirs(tree, Parent(target)); !(target in made && made[target].Dir?)
    ensures var after := WithDirs(tree, Parent(target))[target := File(content)];
      !FileOnWay(after, Parent(target)) && WithDirs(after, Parent(target)) == after && target in after
  {
    var made := WithDirs(tree, Parent(target));
    var after := made[target := File(content)];
    forall n | 0 <= n <= |Parent(target)| ensures Parent(target)[..n] in after && after[Parent(target)[..n]].Dir? {
      var q := Parent(target)[..n];
      assert q in made && made[q].Dir?;
    }
  }

  /** Repeating a successful append changes nothing and succeeds again. */
  lemma AppendRetry(tree: Tree, root: Path, target: Path, content: string)
    requires Append(tree, root, target, content).1.Ready?
    ensures var after := Append(tree, root, target, content).0;
      Append(after, root, target, content) == (after, Ready("idempotent_existing_content"))
  {
    hide ReadText, EndsWith;
  }

  lemma PlainLine(content: string)
    ensures Plain(Line(content)) <==> Plain(content)
    ensures Line(content) != "" && EndsWith(Line(content), "\n")
  {
    var n := |content|;
    if !EndsWith(content, "\n") {
      assert Line(content)[..n] == content;
      assert Plain(Line(content)) ==> forall i :: 0 <= i < n ==> Line(content)[i] == content[i];
      assert !Plain(content) ==> exists i :: 0 <= i < n && Line(content)[i] == '\r';
    }
  }

  lemma PlainSuffix(s: string, suffix: string)
    requires Plain(s) && EndsWith(s, suffix)
    ensures Plain(suffix)
  {
    var n := |s| - |suffix|;
    assert forall i :: 0 <= i < |suffix| ==> suffix[i] == s[n + i];
  }

  lemma SuffixOfJoined(head: string, s: string)
    ensures EndsWith(head + s, s)
  {
  }

  /** An append to a file succeeds, with the text at the end of the file, exactly when the content
      has no carriage return, and otherwise reports a failure. */
  lemma AppendOutcome(tree: Tree, root: Path, target: Path, content: string)
    requires IsUnder(target, root) && target in tree && tree[target].File?
    ensures var (after, r) := Append(tree, root, target, content);
      && (r.Ready? <==> Plain(content)) && (r.Failed? <==> !Plain(content))
      && target in after && after[target].File?
      && (Plain(content) ==> EndsWith(ReadText(after[target].raw), Line(content)))
  {
    hide EndsWith, Line;
    var before := ReadText(tree[target].raw);
    var head := before + Gap(before);
    var line := Line(content);
    PlainLine(content);
    ReadTextPlain(tree[target].raw);
    if EndsWith(before, line) {
      PlainSuffix(before, line);
    } else {
      ReadTextAfterPlain(head, line);
      ReadTextFaithful(line);
      SuffixOfJoined(head, line);
      ReadTextPlain(head + line);
      if EndsWith(ReadText(head + line), line) {
        PlainSuffix(ReadText(head + line), line);
      }
    }
  }

  /** Repeating an append changes nothing if and only if the content has no carriage return, and
      exactly then the append and its repetition report success. */
  lemma AppendRetryIff(tree: Tree, root: Path, target: Path, content: string)
    requires IsUnder(target, root) && target in tree && tree[target].File?
    ensures var (after, first) := Append(tree, root, target, content);
      var (again, second) := Append(after, root, target, content);
      && (again == after <==> Plain(content))
      && (first.Ready? <==> Plain(content)) && (second.Ready? <==> Plain(content))
  {
    AppendOutcome(tree, root, target, content);
    var (after, first) := Append(tree, root, target, content);
    AppendOutcome(after, root, target, content);
    var (again, second) := Append(after, root, target, content);
    if Plain(content) {
      hide ReadText, EndsWith, Line, Plain;
      AppendRetry(tree, root, target, content);
    } else {
      RepeatedAppendLonger(tree, root, target, content);
    }
  }

  /** With a carriage return the second append makes the file longer than the first left it. */
  lemma RepeatedAppendLonger(tree: Tree, root: Path, target: Path, content: string)
    requires IsUnder(target, root) && target in tree && tree[target].File? && !Plain(content)
    ensures var after := Append(tree, root, target, content).0;
      && target in after && after[target].File?
      && Append(after, root, target, content).0 != after
  {
    hide EndsWith, Line;
    var before := ReadText(tree[target].raw);
    var head, line := before + Gap(before), Line(content);
    PlainLine(content);
    ReadTextPlain(tree[target].raw);
    if EndsWith(before, line) {
      PlainSuffix(before, line);
    }
    var after := Append(tree, root, target, content).0;
    assert after[target].raw == head + line;
    ReadTextAfterPlain(head, line);
    var read := ReadText(head + line);
    ReadTextPlain(head + line);
    if EndsWith(read, line) {
      PlainSuffix(read, line);
    }
    ReadTextNonempty(line);
    var again := Append(after, root, target, content).0;
    assert again[target].raw == read + Gap(read) + line;
  }

  lemma ReadTextNonempty(raw: string)
    requires raw != ""
    ensures ReadText(raw) != ""
  {
  }

  /** A first write to a new path reports the same status as its repetition exactly when the content
      is not empty and has no carriage return. An empty file is created, reported as failed, and
      reported as ready the next time. */
  lemma FirstWriteRetryIff(tree: Tree, root: Path, target: Path, content: string)
    requires IsUnder(target, root) && target !in tree && !FileOnWay(tree, Parent(target))
    requires target !in WithDirs(tree, Parent(target))
    ensures var (after, first) := Write(tree, root, target, content, false);
      var (_, second) := Write(after, root, target, content, false);
      && after[target] == File(content)
      && ((first.Ready? && second.Ready?) || (first.Failed? && second.Failed?) || (first.Blocked? && second.Blocked?)
          <==> content != "" && Plain(content))
      && (content == "" ==> first == Failed("file_validation_failed") && second == Ready("idempotent_existing_content"))
  {
    hide WithDirs, FileOnWay;
    ReadTextFaithful(content);
  }

  // ---------------------------------------------------------------- every call, exactly

  lemma IsUnderExactly(path: Path, root: Path)
    ensures IsUnder(path, root) <==> exists rest :: path == root + rest
  {
    if IsUnder(path, root) {
      assert path == root + path[|root|..];
    }
  }

  lemma ReturnRead(end: string, b: string)
    requires end == "\r\n" || (end == "\r" && (b == [] || b[0] != '\n'))
    ensures ReadText(end + b) == ['\n'] + ReadText(b)
  {
    var raw := end + b;
    assert raw[0] == '\r' && raw[|end|..] == b;
    assert |end| == 2 ==> raw[1] == '\n';
    assert |end| == 1 && b != [] ==> raw[1] == b[0];
  }

  /** Reading turns a carriage return, with or without a newline behind it, into one newline. */
  lemma LineEndsRead(a: string, end: string, b: string)
    requires Plain(a) && (end == "\r\n" || (end == "\r" && (b == [] || b[0] != '\n')))
    ensures ReadText(a + (end + b)) == a + (['\n'] + ReadText(b))
  {
    hide ReadText;
    ReadTextAfterPlain(a, end + b);
    ReturnRead(end, b);
  }

  /** Nothing on the way to the path is a file, the first n components included. */
  ghost predicate Open(tree: Tree, path: Path, n: int) {
    forall k :: 0 <= k <= n && k <= |path| && path[..k] in tree ==> tree[path[..k]].Dir?
  }

  /** After the call every directory on the way exists, and nothing else but the target has changed. */
  ghost predicate MadeWay(before: Tree, after: Tree, target: Path, n: int) {
    && (forall k :: 0 <= k <= n && k <= |target| ==> target[..k] in after && after[target[..k]].Dir?)
    && (forall p :: p in before && p != target ==> p in after && after[p] == before[p])
    && (forall p :: p in after && p != target && p !in before ==> exists k :: 0 <= k <= n && k <= |target| && p == target[..k])
  }

  lemma OpenWay(tree: Tree, path: Path)
    ensures path != [] ==> (FileOnWay(tree, Parent(path)) <==> !Open(tree, path, |path| - 1))
    ensures FileOnWay(tree, path) <==> !Open(tree, path, |path|)
  {
    if path != [] {
      forall k | 0 <= k <= |path| - 1 ensures Parent(path)[..k] == path[..k] {
      }
    }
  }

  /** What `write_text_file` does below the root, for every tree, path and text. */
  lemma WriteExactly(tree: Tree, root: Path, target: Path, content: string, overwrite: bool)
    ensures var (after, r) := Write(tree, root, target, content, overwrite);
      var kept := target in tree && !overwrite;
      var same := kept && tree[target].File? && ReadText(tree[target].raw) == content;
      var open := target != [] && Open(tree, target, |target| - 1) && !(target in tree && tree[target].Dir?);
      && (!IsUnder(target, root) ==> after == tree && r == Blocked("sandbox_path_required"))
      && (IsUnder(target, root) && same ==> after == tree && r == Ready("idempotent_existing_content"))
      && (IsUnder(target, root) && kept && !same ==> after == tree && r == Blocked("overwrite_requires_explicit_flag"))
      && (IsUnder(target, root) && !kept && !open ==> r == Failed("sandbox_writer_exception"))
      && (IsUnder(target, root) && !kept && open ==>
           && target in after && after[target] == File(content) && MadeWay(tree, after, target, |target| - 1)
           && r == if content != "" && Plain(content) then Ready("") else Failed("file_validation_failed"))
  {
    hide ReadText, IsUnder, FileOnWay, Open, MadeWay;
    OpenWay(tree, target);
    ReadTextFaithful(content);
    if target == [] {
      RootIsDirectory(tree);
    } else if Open(tree, target, |target| - 1) {
      WayMade(tree, target);
      FileWritten(tree, WithDirs(tree, Parent(target)), target, content);
    }
  }

  lemma RootIsDirectory(tree: Tree)
    ensures !FileOnWay(tree, Parent([])) ==> [] in WithDirs(tree, Parent([])) && WithDirs(tree, Parent([]))[[]].Dir?
  {
    var p := Parent([]);
    assert p[..0] == [];
  }

  lemma WayMade(tree: Tree, target: Path)
    requires target != [] && Open(tree, target, |target| - 1)
    ensures MadeWay(tree, WithDirs(tree, Parent(target)), target, |target| - 1)
    ensures target in WithDirs(tree, Parent(target)) <==> target in tree
    ensures target in tree ==> WithDirs(tree, Parent(target))[target] == tree[target]
  {
    var parent, made := Parent(target), WithDirs(tree, Parent(target));
    assert forall k :: 0 <= k <= |parent| ==> parent[..k] == target[..k] && |parent[..k]| == k;
    forall k | 0 <= k <= |target| - 1 ensures target[..k] in made && made[target[..k]].Dir? {
      assert parent[..k] == target[..k];
    }
    forall p | p in made && p !in tree ensures exists k :: 0 <= k <= |target| - 1 && p == target[..k] {
      var k :| 0 <= k <= |parent| && p == parent[..k];
      assert p == target[..k];
    }
  }

  lemma FileWritten(before: Tree, made: Tree, target: Path, content: string)
    requires target != [] && MadeWay(before, made, target, |target| - 1)
    ensures MadeWay(before, made[target := File(content)], target, |target| - 1)
  {
    var after := made[target := File(content)];
    forall k | 0 <= k <= |target| - 1 ensures target[..k] in after && after[target[..k]].Dir? {
      assert |target[..k]| == k;
    }
  }

  /** What `create_directory` does: below the root and with no file in the way, the directory and all
      above it exist afterwards and nothing else has changed. */
  lemma MakeDirectoryExactly(tree: Tree, root: Path, target: Path)
    ensures var (after, r) := MakeDirectory(tree, root, target);
      && (!IsUnder(target, root) ==> after == tree && r == Blocked("sandbox_path_required"))
      && (IsUnder(target, root) && !Open(tree, target, |target|) ==> after == tree && r == Failed("sandbox_writer_exception"))
      && (IsUnder(target, root) && Open(tree, target, |target|) ==> r == Ready("") && MadeWay(tree, after, target, |target|))
  {
    hide IsUnder, FileOnWay;
    OpenWay(tree, target);
    var made := WithDirs(tree, target);
    if Open(tree, target, |target|) {
      forall k | 0 <= k <= |target| ensures target[..k] in made && made[target[..k]].Dir? {
      }
      assert target[..|target|] == target;
    }
  }

  /** What `append_text_file` does: the text, ended by a newline, goes behind the old text, with a
      newline between them only where the old text lacks one. */
  lemma AppendExactly(tree: Tree, root: Path, target: Path, content: string)
    ensures var (after, r) := Append(tree, root, target, content);
      var file := target in tree && tree[target].File?;
      && (!IsUnder(target, root) ==> after == tree && r == Blocked("sandbox_path_required"))
      && (IsUnder(target, root) && !file ==> after == tree && r == Blocked("file_not_found"))
      && (IsUnder(target, root) && file ==>
           var before := ReadText(tree[target].raw);
           var line := if content != "" && content[|content| - 1] == '\n' then content else content + "\n";
           var gap := if before == "" || before[|before| - 1] == '\n' then "" else "\n";
           if |line| <= |before| && before[|before| - |line|..] == line
           then after == tree && r == Ready("idempotent_existing_content")
           else after == tree[target := File(before + gap + line)])
  {
    hide ReadText, IsUnder;
    EndsInNewline(content);
    if target in tree && tree[target].File? {
      EndsInNewline(ReadText(tree[target].raw));
    }
  }

  lemma EndsInNewline(s: string)
    ensures EndsWith(s, "\n") <==> s != "" && s[|s| - 1] == '\n'
  {
    if s != "" {
      assert s[|s| - 1..] == [s[|s| - 1]];
    }
  }
}
