/** The dependency scanner of the C preprocessor: what a line does, what a file does with all it includes, and
    what conditional inclusion means on a well-nested file. */
module Preproc {
  import opened Basics

  const RECURSION_LIMIT: nat := 150

  type Name = string
  type File = nat
  type Dir = nat
  type Defs = map<Name, string>

  /** A preprocessor line. A name is `None` when the rest of the line does not start with one. */
  datatype Line =
    | If(cond: string) | Ifdef(name: Option<Name>) | Ifndef(name: Option<Name>)
    | Elif(cond: string) | Else | Endif
    | Include(what: string, once: bool) | Define(name: Option<Name>, text: string) | Undef(name: Option<Name>)
    | Pragma(once: bool)

  datatype Mark = Accepted | Ignored | Undefined | Skipped

  datatype Truth = Holds | Fails | Broken

  /** What an include line names, and whether in quotes. */
  datatype Target = Target(quoted: bool, name: string)

  datatype Content = Lines(lines: seq<Line>) | Unreadable

  /** Everything the scanner asks of its surroundings: the value of a condition, the name in an include line,
      the file of that name in a directory, the directory of a file and what is in it. */
  datatype World = World(
    eval: (string, Defs) -> Truth, target: (string, Defs) -> Option<Target>, find: (Dir, string) -> Option<File>,
    parent: File -> Dir, read: File -> Content, nodepaths: seq<Dir>, strictQuotes: bool)

  /** `dirs` holds the directory of every file being read; `current` the last file looked for. */
  datatype Scan = Scan(defs: Defs, dirs: seq<Dir>, bans: set<Option<File>>, current: Option<File>,
                       nodes: seq<File>, names: seq<string>, state: seq<Mark>)

  predicate Active(state: seq<Mark>) {
    Skipped !in state && Ignored !in state
  }

  predicate Opens(line: Line) {
    line.If? || line.Ifdef? || line.Ifndef?
  }

  predicate StartsArm(line: Line) {
    line.Elif? || line.Else?
  }

  /** A line that is not about conditions. */
  predicate Plain(line: Line) {
    !Opens(line) && !StartsArm(line) && !line.Endif?
  }

  function Judge(w: World, defs: Defs, line: Line): Truth {
    match line
    case If(c) => w.eval(c, defs)
    case Elif(c) => w.eval(c, defs)
    case Ifdef(n) => if n.Some? && n.value in defs then Holds else Fails
    case Ifndef(n) => if n.Some? && n.value in defs then Fails else Holds
    case _ => Holds
  }

  function Found(w: World, dirs: seq<Dir>, name: string): Option<File>
    decreases |dirs|
  {
    if dirs == [] then None
    else if w.find(dirs[0], name).Some? then w.find(dirs[0], name)
    else Found(w, dirs[1..], name)
  }

  /** `found` is the file of that name in the first of the directories that has one. */
  ghost predicate FirstFound(w: World, dirs: seq<Dir>, name: string, found: Option<File>) {
    match found
    case None => forall i :: 0 <= i < |dirs| ==> w.find(dirs[i], name) == None
    case Some(_) =>
      exists i :: 0 <= i < |dirs| && w.find(dirs[i], name) == found && forall j :: 0 <= j < i ==>
        w.find(dirs[j], name) == None
  }

  lemma {:induction false} FoundIsFirst(w: World, dirs: seq<Dir>, name: string)
    ensures FirstFound(w, dirs, name, Found(w, dirs, name))
    decreases |dirs|
  {
    var found := Found(w, dirs, name);
    if dirs != [] && w.find(dirs[0], name).None? {
      FoundIsFirst(w, dirs[1..], name);
      if found.Some? {
        var i :| 0 <= i < |dirs[1..]| && w.find(dirs[1..][i], name) == found && forall j :: 0 <= j < i ==>
          w.find(dirs[1..][j], name) == None;
        assert forall j :: 0 < j < i + 1 ==> dirs[j] == dirs[1..][j - 1];
        assert w.find(dirs[i + 1], name) == found;
      } else {
        assert forall j :: 0 < j < |dirs| ==> dirs[j] == dirs[1..][j - 1];
      }
    }
  }

  predicate IsMoc(name: string) {
    |name| >= 4 && name[|name| - 4..] == ".moc"
  }

  /** `body` are the lines of a file that was just opened. */
  datatype Stepped = Stepped(scan: Scan, body: Option<seq<Line>>)

  /** `tryfind` and `addlines`, up to reading the lines. When the file cannot be read, or is one too many, the
      rest of the include line is not carried out but its directory stays on record. */
  function Enter(w: World, s: Scan, name: string, once: bool): Stepped
    requires s.dirs != []
  {
    if IsMoc(name) then Stepped(Look(s.(names := s.names + [name]), None, once), None)
    else
      var found := Found(w, [s.dirs[|s.dirs| - 1]] + w.nodepaths, name);
      if found.Some? && found !in s.bans then
        var t := s.(nodes := s.nodes + [found.value], dirs := s.dirs + [w.parent(found.value)]);
        if |t.dirs| > RECURSION_LIMIT then Stepped(t, None)
        else
          match w.read(found.value)
          case Lines(b) => Stepped(Look(t, found, once), Some(b))
          case Unreadable => Stepped(t, None)
      else
        Stepped(Look(s.(names := if name in s.names then s.names else s.names + [name]), found, once), None)
  }

  function Look(s: Scan, found: Option<File>, once: bool): Scan {
    s.(current := found, bans := if once then s.bans + {found} else s.bans)
  }

  function SetMark(s: Scan, m: Mark): Scan
    requires s.state != []
  {
    s.(state := s.state[..|s.state| - 1] + [m])
  }

  function Including(w: World, s: Scan, what: string, once: bool): Stepped
    requires s.dirs != []
  {
    var t := w.target(what, s.defs);
    if t.Some? && (t.value.quoted || !w.strictQuotes) then Enter(w, s, t.value.name, once) else Stepped(s, None)
  }

  /** What one line does. */
  function Step(w: World, s: Scan, line: Line): Stepped
    requires s.dirs != []
  {
    match line
    case Include(what, once) => if Active(s.state) then Including(w, s, what, once) else Stepped(s, None)
    case _ => Stepped(Apply(w, s, line), None)
  }

  /** What a line does that includes nothing. */
  function Apply(w: World, s: Scan, line: Line): Scan {
    if Opens(line) then
      var t := s.(state := s.state + [Undefined]);
      if !Active(t.state) then t
      else
        match Judge(w, s.defs, line)
        case Holds => SetMark(t, Accepted)
        case Fails => SetMark(t, Ignored)
        case Broken => t
    else if StartsArm(line) then
      if s.state == [] then s
      else if s.state[|s.state| - 1] == Accepted then SetMark(s, Skipped)
      else if s.state[|s.state| - 1] == Ignored && Judge(w, s.defs, line).Holds? then SetMark(s, Accepted)
      else s
    else if line.Endif? then
      if s.state == [] then s else s.(state := s.state[..|s.state| - 1])
    else if !Active(s.state) then s
    else
      match line
      case Define(n, text) => if n.Some? then s.(defs := s.defs[n.value := text]) else s
      case Undef(n) => if n.Some? then s.(defs := s.defs - {n.value}) else s
      case Pragma(once) => if once then s.(bans := s.bans + {s.current}) else s
      case _ => s
  }

  function Close(s: Scan): Scan
    requires s.dirs != []
  {
    s.(dirs := s.dirs[..|s.dirs| - 1])
  }

  function Room(s: Scan): nat {
    if |s.dirs| <= RECURSION_LIMIT then RECURSION_LIMIT - |s.dirs| else 0
  }

  lemma StepDirs(w: World, s: Scan, line: Line)
    requires s.dirs != []
    ensures s.dirs <= Step(w, s, line).scan.dirs
    ensures Step(w, s, line).body.Some? ==>
      Room(Step(w, s, line).scan) < Room(s) && |Step(w, s, line).scan.dirs| > |s.dirs|
  {
  }

  /** What a file does: its lines in turn, a file it includes where it is included. */
  function Read(w: World, s: Scan, lines: seq<Line>): (r: Scan)
    requires s.dirs != []
    ensures s.dirs <= r.dirs
    decreases Room(s), |lines|
  {
    if lines == [] then s
    else
      StepDirs(w, s, lines[0]);
      var t := Step(w, s, lines[0]);
      if t.body.None? then Read(w, t.scan, lines[1..])
      else Read(w, Close(Read(w, t.scan, t.body.value)), lines[1..])
  }

  /** How many entries the line stack gives up while it does that. */
  ghost function Cost(w: World, s: Scan, lines: seq<Line>): nat
    requires s.dirs != []
    decreases Room(s), |lines|
  {
    if lines == [] then 0
    else
      StepDirs(w, s, lines[0]);
      var t := Step(w, s, lines[0]);
      if t.body.None? then 1 + Cost(w, t.scan, lines[1..])
      else 2 + Cost(w, t.scan, t.body.value) + Cost(w, Close(Read(w, t.scan, t.body.value)), lines[1..])
  }

  // --- the stack of lines

  datatype Entry = Text(line: Line) | PopFile

  ghost function Texts(lines: seq<Line>): (r: seq<Entry>)
    ensures |r| == |lines| && forall i :: 0 <= i < |r| ==> r[i] == Text(lines[i])
  {
    seq(|lines|, i requires 0 <= i < |lines| => Text(lines[i]))
  }

  /** The rest of every file being read, the innermost first, each ended by its marker. */
  ghost function Join(frames: seq<seq<Line>>): seq<Entry> {
    if frames == [] then [] else Texts(frames[0]) + [PopFile] + Join(frames[1..])
  }

  ghost function Backwards<T>(q: seq<T>): (r: seq<T>)
    ensures |r| == |q| && forall i :: 0 <= i < |q| ==> r[i] == q[|q| - 1 - i]
  {
    seq(|q|, i requires 0 <= i < |q| => q[|q| - 1 - i])
  }

  ghost function Finish(w: World, s: Scan, frames: seq<seq<Line>>): Scan
    requires |s.dirs| >= |frames|
    decreases |frames|
  {
    if frames == [] then s else Finish(w, Close(Read(w, s, frames[0])), frames[1..])
  }

  ghost function StackCost(w: World, s: Scan, frames: seq<seq<Line>>): nat
    requires |s.dirs| >= |frames|
    decreases |frames|
  {
    if frames == [] then 0
    else Cost(w, s, frames[0]) + 1 + StackCost(w, Close(Read(w, s, frames[0])), frames[1..])
  }

  // --- the parser

  class Parser {
    var lines: seq<Entry>
    var state: seq<Mark>
    var defs: Defs
    var countFiles: int
    var currentnodeStack: seq<Dir>
    var nodes: seq<File>
    var names: seq<string>
    var currentFile: Option<File>
    var banIncludes: set<Option<File>>

    constructor (d: Defs)
      ensures lines == [] && View() == Scan(d, [], {}, None, [], [], []) && Valid()
    {
      lines, state, defs, countFiles, currentnodeStack := [], [], d, 0, [];
      nodes, names, currentFile, banIncludes := [], [], None, {};
    }

    ghost function View(): Scan
      reads this
    {
      Scan(defs, currentnodeStack, banIncludes, currentFile, nodes, names, state)
    }

    ghost predicate Valid()
      reads this
    {
      countFiles == |currentnodeStack|
    }

    method Tryfind(w: World, filename: string)
      returns (found: Option<File>, raised: bool, ghost body: Option<seq<Line>>)
      requires Valid() && currentnodeStack != []
      modifies this`names, this`nodes, this`currentnodeStack, this`countFiles, this`lines
      ensures Valid()
      ensures forall once ::
        var t := Enter(w, old(View()), filename, once);
        && Stepped(if raised then View() else Look(View(), found, once), body) == t
      ensures lines == old(lines) + (if body.Some? then Backwards(Texts(body.value) + [PopFile]) else [])
      ensures |filename| >= 4 && filename[|filename| - 4..] == ".moc" ==>
        found == None && !raised && names == old(names) + [filename] && nodes == old(nodes) && body == None
      ensures !(|filename| >= 4 && filename[|filename| - 4..] == ".moc") ==>
        && FirstFound(w, [old(currentnodeStack)[|old(currentnodeStack)| - 1]] + w.nodepaths, filename, found)
        && (found.Some? && found !in banIncludes ==>
              && names == old(names) && nodes == old(nodes) + [found.value]
              && currentnodeStack == old(currentnodeStack) + [w.parent(found.value)]
              && (raised <==> |currentnodeStack| > RECURSION_LIMIT || w.read(found.value).Unreadable?)
              && (!raised ==> w.read(found.value).Lines? && body == Some(w.read(found.value).lines)))
        && (found == None || found in banIncludes ==>
              && !raised && body == None && nodes == old(nodes) && currentnodeStack == old(currentnodeStack)
              && names == if filename in old(names) then old(names) else old(names) + [filename])
    {
      body := None;
      if IsMoc(filename) {
        names := names + [filename];
        return None, false, None;
      }
      found := w.find(currentnodeStack[|currentnodeStack| - 1], filename);
      var i := 0;
      while i < |w.nodepaths| && found.None?
        invariant 0 <= i <= |w.nodepaths|
        invariant Found(w, [currentnodeStack[|currentnodeStack| - 1]] + w.nodepaths, filename)
               == if found.Some? then found else Found(w, w.nodepaths[i..], filename)
      {
        found := w.find(w.nodepaths[i], filename);
        i := i + 1;
      }
      FoundIsFirst(w, [currentnodeStack[|currentnodeStack| - 1]] + w.nodepaths, filename);
      hide FirstFound, Backwards, Texts;
      raised := false;
      if found.Some? && found !in banIncludes {
        nodes := nodes + [found.value];
        raised, body := Addlines(w, found.value);
      } else if filename !in names {
        names := names + [filename];
      }
    }

    method Addlines(w: World, node: File) returns (raised: bool, ghost body: Option<seq<Line>>)
      requires Valid()
      modifies this`currentnodeStack, this`countFiles, this`lines
      ensures Valid() && currentnodeStack == old(currentnodeStack) + [w.parent(node)]
      ensures raised <==> |currentnodeStack| > RECURSION_LIMIT || w.read(node).Unreadable?
      ensures body == if !raised && w.read(node).Lines? then Some(w.read(node).lines) else None
      ensures lines == old(lines) + (if body.Some? then Backwards(Texts(body.value) + [PopFile]) else [])
    {
      currentnodeStack := currentnodeStack + [w.parent(node)];
      countFiles := countFiles + 1;
      if countFiles > RECURSION_LIMIT {
        return true, None;
      }
      match w.read(node) {
        case Lines(b) =>
          var more := Prepare(b);
          lines := lines + more;
          return false, Some(b);
        case Unreadable =>
          return true, None;
      }
    }

    method IncludeLine(w: World, what: string, once: bool) returns (ghost body: Option<seq<Line>>)
      requires Valid() && currentnodeStack != []
      modifies this
      ensures Valid() && Stepped(View(), body) == Including(w, old(View()), what, once)
      ensures
        var t := w.target(what, old(defs));
        if t.Some? && (t.value.quoted || !w.strictQuotes)
          then Stepped(View(), body) == Enter(w, old(View()), t.value.name, once)
          else View() == old(View()) && body == None
      ensures lines == old(lines) + (if body.Some? then Backwards(Texts(body.value) + [PopFile]) else [])
    {
      hide Enter, Backwards, Texts;
      body := None;
      var t := w.target(what, defs);
      if t.Some? && (t.value.quoted || !w.strictQuotes) {
        var found, raised;
        found, raised, body := Tryfind(w, t.value.name);
        if !raised {
          currentFile := found;
          if once {
            banIncludes := banIncludes + {currentFile};
          }
        }
      }
    }

    /** One line, with whatever it raises dropped as the parser does. */
    method Execute(w: World, line: Line) returns (ghost body: Option<seq<Line>>)
      requires Valid() && currentnodeStack != []
      modifies this
      ensures Valid() && Stepped(View(), body) == Step(w, old(View()), line)
      ensures lines == old(lines) + (if body.Some? then Backwards(Texts(body.value) + [PopFile]) else [])
    {
      hide Judge, Including, Backwards, Texts, Carried, Opened, Step;
      StepInTwo(w, View(), line);
      OpenedIs(View(), line);
      body := None;
      EndsThere(lines);
      if Opens(line) {
        state := state + [Undefined];
      } else if line.Endif? {
        if state == [] {
          return;
        }
        state := state[..|state| - 1];
      }
      if !StartsArm(line) && !line.Endif? && !Active(state) {
        return;
      }
      body := Carry(w, line);
    }

    /** The part of a round that depends on the kind of line. */
    method Carry(w: World, line: Line) returns (ghost body: Option<seq<Line>>)
      requires Valid() && currentnodeStack != [] && (Opens(line) ==> state != [])
      modifies this
      ensures Valid() && Stepped(View(), body) == Carried(w, old(View()), line)
      ensures lines == old(lines) + (if body.Some? then Backwards(Texts(body.value) + [PopFile]) else [])
    {
      hide Including, Backwards, Texts;
      body := None;
      match line {
        case If(c) =>
          var truth := w.eval(c, defs);
          if !truth.Broken? {
            MarkTop(if truth.Holds? then Accepted else Ignored);
          }
        case Ifdef(n) =>
          if n.Some? && n.value in defs {
            MarkTop(Accepted);
          } else {
            MarkTop(Ignored);
          }
        case Ifndef(n) =>
          if n.Some? && n.value in defs {
            MarkTop(Ignored);
          } else {
            MarkTop(Accepted);
          }
        case Include(what, once) =>
          body := IncludeLine(w, what, once);
        case Elif(c) =>
          if state == [] {
          } else if state[|state| - 1] == Accepted {
            MarkTop(Skipped);
          } else if state[|state| - 1] == Ignored {
            var truth := w.eval(c, defs);
            if truth.Holds? {
              MarkTop(Accepted);
            }
          }
        case Else =>
          if state == [] {
          } else if state[|state| - 1] == Accepted {
            MarkTop(Skipped);
          } else if state[|state| - 1] == Ignored {
            MarkTop(Accepted);
          }
        case Define(n, text) =>
          if n.Some? {
            defs := defs[n.value := text];
          }
        case Undef(n) =>
          if n.Some? && n.value in defs {
            defs := defs - {n.value};
          }
        case Pragma(once) =>
          if once {
            banIncludes := banIncludes + {currentFile};
          }
        case Endif =>
      }
    }

    method MarkTop(m: Mark)
      requires state != []
      modifies this`state
      ensures state == old(state)[..|old(state)| - 1] + [m]
    {
      state := state[..|state| - 1] + [m];
    }

    /** `defines` are the definitions of the build, read before the file itself. It ends whatever the files
        hold, and does what reading them one inside the other does. */
    method Start(w: World, node: File, defines: seq<Line>) returns (raised: bool)
      requires Valid() && lines == [] && currentnodeStack == []
      modifies this
      ensures Valid() && (raised <==> w.read(node).Unreadable?)
      ensures !raised ==> lines == [] && View() == Scanned(w, old(View()), node, defines + w.read(node).lines)
    {
      hide Read, Finish, Join, Backwards, Texts, Close, Step, Cost, StackCost;
      currentFile := Some(node);
      ghost var body;
      raised, body := Addlines(w, node);
      if raised {
        return;
      }
      assert currentnodeStack == [w.parent(node)];
      NothingBefore(Backwards(Texts(body.value) + [PopFile]));
      var above := Prepare(defines);
      OnTop(defines, body.value);
      lines := lines + above[1..];
      ghost var first := View();
      assert first == old(View()).(current := Some(node), dirs := [w.parent(node)]);
      FinishOne(w, first, defines + body.value);
      LoopOver(w, first, defines + body.value);
    }

    /** The loop, from the lines of one file on. */
    method LoopOver(w: World, ghost first: Scan, ghost all: seq<Line>)
      requires Valid() && currentnodeStack != [] && lines == Backwards(Join([all])) && View() == first
      modifies this
      ensures Valid() && lines == [] && View() == Finish(w, first, [all])
    {
      hide Finish, Join, Backwards;
      Loop(w, [all]);
    }

    method Loop(w: World, ghost all: seq<seq<Line>>)
      requires Valid() && |currentnodeStack| >= |all| && lines == Backwards(Join(all))
      modifies this
      ensures Valid() && lines == [] && View() == Finish(w, old(View()), all)
    {
      hide Finish, StackCost, Join, Backwards;
      ghost var frames := all;
      while lines != []
        invariant Valid() && |currentnodeStack| >= |frames| && lines == Backwards(Join(frames))
        invariant Finish(w, View(), frames) == Finish(w, old(View()), all)
        decreases StackCost(w, View(), frames)
      {
        frames := Turn(w, frames);
      }
      Nothing(frames);
      FinishNone(w, View());
    }

    /** One round of the loop; `frames` is what is left of each file being read. */
    method Turn(w: World, ghost frames: seq<seq<Line>>) returns (ghost next: seq<seq<Line>>)
      requires Valid() && |currentnodeStack| >= |frames| && lines == Backwards(Join(frames)) && lines != []
      modifies this
      ensures Valid() && |currentnodeStack| >= |next| && lines == Backwards(Join(next))
      ensures Finish(w, View(), next) == Finish(w, old(View()), frames)
      ensures StackCost(w, View(), next) < StackCost(w, old(View()), frames)
    {
      var entry := lines[|lines| - 1];
      Nothing(frames);
      BottomUp(frames);
      FinishTurn(w, View(), frames);
      hide Finish, StackCost, Join, Backwards, Texts, Step, Pushed, Close;
      lines := lines[..|lines| - 1];
      if entry.PopFile? {
        CloseIs(View());
        countFiles := countFiles - 1;
        currentnodeStack := currentnodeStack[..|currentnodeStack| - 1];
        next := frames[1..];
      } else {
        ghost var more;
        more := Execute(w, entry.line);
        Push(frames, more);
        next := Pushed(frames, more);
      }
    }
  }

  ghost function Pushed(frames: seq<seq<Line>>, more: Option<seq<Line>>): (r: seq<seq<Line>>)
    requires frames != [] && frames[0] != []
  {
    (if more.Some? then [more.value] else []) + [frames[0][1..]] + frames[1..]
  }

  /** What a line about conditions does to the stack of marks before anything else. */
  ghost function Opened(s: Scan, line: Line): Scan {
    if Opens(line) then s.(state := s.state + [Undefined])
    else if line.Endif? && s.state != [] then s.(state := s.state[..|s.state| - 1])
    else s
  }

  ghost function Carried(w: World, s: Scan, line: Line): Stepped
    requires s.dirs != [] && (Opens(line) ==> s.state != [])
  {
    match line
    case If(_) | Ifdef(_) | Ifndef(_) =>
      Stepped((match Judge(w, s.defs, line) case Holds => SetMark(s, Accepted) case Fails => SetMark(s, Ignored)
               case Broken => s), None)
    case Include(what, once) => Including(w, s, what, once)
    case Elif(_) | Else =>
      Stepped(if s.state == [] then s
              else if s.state[|s.state| - 1] == Accepted then SetMark(s, Skipped)
              else if s.state[|s.state| - 1] == Ignored && Judge(w, s.defs, line).Holds? then SetMark(s, Accepted)
              else s, None)
    case Define(n, text) => Stepped(if n.Some? then s.(defs := s.defs[n.value := text]) else s, None)
    case Undef(n) => Stepped(if n.Some? then s.(defs := s.defs - {n.value}) else s, None)
    case Pragma(once) => Stepped(if once then s.(bans := s.bans + {s.current}) else s, None)
    case Endif => Stepped(s, None)
  }

  lemma StepInTwo(w: World, s: Scan, line: Line)
    requires s.dirs != []
    ensures
      var t := Opened(s, line);
      && t.dirs == s.dirs && (Opens(line) ==> t.state != [])
      && Step(w, s, line) ==
        if line.Endif? && s.state == [] then Stepped(s, None)
        else if !StartsArm(line) && !line.Endif? && !Active(t.state) then Stepped(t, None)
        else Carried(w, t, line)
  {
    hide Judge, Including;
  }

  lemma OpenedIs(s: Scan, line: Line)
    ensures Opened(s, line) ==
      if Opens(line) then s.(state := s.state + [Undefined])
      else if line.Endif? && s.state != [] then s.(state := s.state[..|s.state| - 1])
      else s
  {
  }

  lemma NothingBefore<T>(q: seq<T>)
    ensures [] + q == q
  {
  }

  lemma CloseIs(s: Scan)
    ensures s.dirs != [] ==> Close(s) == s.(dirs := s.dirs[..|s.dirs| - 1])
  {
  }

  lemma FinishNone(w: World, s: Scan)
    ensures Finish(w, s, []) == s
  {
  }

  lemma FinishOne(w: World, s: Scan, lines: seq<Line>)
    requires s.dirs != []
    ensures Finish(w, s, [lines]) == Close(Read(w, s, lines))
  {
  }

  lemma Nothing(frames: seq<seq<Line>>)
    ensures Backwards(Join(frames)) == [] <==> frames == []
  {
  }

  /** A round takes away its own share of the work and leaves the same result to come. */
  lemma FinishTurn(w: World, s: Scan, frames: seq<seq<Line>>)
    requires frames != [] && |s.dirs| >= |frames|
    ensures frames[0] == [] ==>
      Finish(w, Close(s), frames[1..]) == Finish(w, s, frames)
      && StackCost(w, Close(s), frames[1..]) < StackCost(w, s, frames)
    ensures frames[0] != [] ==>
      var t := Step(w, s, frames[0][0]);
      && |t.scan.dirs| >= |Pushed(frames, t.body)|
      && Finish(w, t.scan, Pushed(frames, t.body)) == Finish(w, s, frames)
      && StackCost(w, t.scan, Pushed(frames, t.body)) < StackCost(w, s, frames)
  {
    if frames[0] != [] {
      FinishLine(w, s, frames);
    }
  }

  lemma FinishLine(w: World, s: Scan, frames: seq<seq<Line>>)
    requires frames != [] && |s.dirs| >= |frames| && frames[0] != []
    ensures
      var t := Step(w, s, frames[0][0]);
      && |t.scan.dirs| >= |Pushed(frames, t.body)|
      && Finish(w, t.scan, Pushed(frames, t.body)) == Finish(w, s, frames)
      && StackCost(w, t.scan, Pushed(frames, t.body)) < StackCost(w, s, frames)
  {
    var t := Step(w, s, frames[0][0]);
    StepDirs(w, s, frames[0][0]);
    var next, rest := Pushed(frames, t.body), [frames[0][1..]] + frames[1..];
    hide Step;
    assert rest[1..] == frames[1..];
    if t.body.Some? {
      assert next[1..] == rest;
    } else {
      assert next == rest;
    }
  }

  /** Reading `node` from scratch. */
  ghost function Scanned(w: World, s: Scan, node: File, lines: seq<Line>): Scan {
    Close(Read(w, s.(current := Some(node), dirs := [w.parent(node)]), lines))
  }

  lemma BackwardsHead<T>(a: T, q: seq<T>)
    ensures Backwards([a] + q)[|q|] == a && Backwards([a] + q)[..|q|] == Backwards(q)
  {
  }

  lemma JoinEnd(frames: seq<seq<Line>>)
    requires frames != [] && frames[0] == []
    ensures Join(frames) == [PopFile] + Join(frames[1..])
  {
    assert Texts(frames[0]) + [PopFile] == [PopFile];
  }

  lemma JoinCons(f: seq<Line>, rest: seq<seq<Line>>)
    ensures Join([f] + rest) == Texts(f) + ([PopFile] + Join(rest))
  {
    assert ([f] + rest)[1..] == rest;
    assert Texts(f) + [PopFile] + Join(rest) == Texts(f) + ([PopFile] + Join(rest));
  }

  lemma TextsCons(line: Line, f: seq<Line>)
    ensures Texts([line] + f) == [Text(line)] + Texts(f)
  {
  }

  lemma JoinLine(frames: seq<seq<Line>>)
    requires frames != [] && frames[0] != []
    ensures Join(frames) == [Text(frames[0][0])] + Join([frames[0][1..]] + frames[1..])
  {
    hide *;
    var f, rest := frames[0], frames[1..];
    assert frames == [f] + rest && f == [f[0]] + f[1..];
    JoinCons(f, rest);
    JoinCons(f[1..], rest);
    TextsCons(f[0], f[1..]);
  }

  /** What is popped is the first line of the innermost file, or its end marker. */
  lemma BottomUp(frames: seq<seq<Line>>)
    requires frames != []
    ensures
      var q := Backwards(Join(frames));
      && q != []
      && (if frames[0] == [] then q[|q| - 1] == PopFile && q[..|q| - 1] == Backwards(Join(frames[1..]))
          else q[|q| - 1] == Text(frames[0][0])
               && q[..|q| - 1] == Backwards(Join([frames[0][1..]] + frames[1..])))
  {
    if frames[0] == [] {
      JoinEnd(frames);
      BackwardsHead(PopFile, Join(frames[1..]));
    } else {
      JoinLine(frames);
      BackwardsHead(Text(frames[0][0]), Join([frames[0][1..]] + frames[1..]));
    }
  }

  /** An opened file goes on top. */
  lemma Push(frames: seq<seq<Line>>, more: Option<seq<Line>>)
    requires frames != [] && frames[0] != []
    ensures
      var rest := [frames[0][1..]] + frames[1..];
      Backwards(Join(rest)) + (if more.Some? then Backwards(Texts(more.value) + [PopFile]) else [])
      == Backwards(Join(Pushed(frames, more)))
  {
    var rest := [frames[0][1..]] + frames[1..];
    hide Join, Backwards, Texts;
    if more.Some? {
      Onto(more.value, rest, frames);
      JoinCons(more.value, rest);
      BackwardsJoin(Texts(more.value) + [PopFile], Join(rest));
      Together(Texts(more.value), [PopFile], Join(rest));
    } else {
      NothingBefore(rest);
      EndsThere(Backwards(Join(rest)));
    }
  }

  lemma Onto(f: seq<Line>, rest: seq<seq<Line>>, frames: seq<seq<Line>>)
    requires frames != [] && frames[0] != [] && rest == [frames[0][1..]] + frames[1..]
    ensures Pushed(frames, Some(f)) == [f] + rest
  {
    Together([f], [frames[0][1..]], frames[1..]);
  }

  lemma BackwardsJoin<T>(a: seq<T>, b: seq<T>)
    ensures Backwards(a + b) == Backwards(b) + Backwards(a)
  {
  }

  lemma Together<T>(a: seq<T>, b: seq<T>, c: seq<T>)
    ensures a + b + c == a + (b + c)
  {
  }

  lemma EndsThere<T>(q: seq<T>)
    ensures q + [] == q
  {
  }

  lemma OnTop(defines: seq<Line>, body: seq<Line>)
    ensures Backwards(Texts(defines) + [PopFile]) != []
    ensures Backwards(Texts(body) + [PopFile]) + Backwards(Texts(defines) + [PopFile])[1..]
      == Backwards(Join([defines + body]))
  {
    assert Texts(defines + body) == Texts(defines) + Texts(body);
    assert Join([defines + body]) == Texts(defines + body) + [PopFile] + [];
  }

  /** The lines of a file and its end marker, the last first. */
  method Prepare(b: seq<Line>) returns (r: seq<Entry>)
    ensures r == Backwards(Texts(b) + [PopFile])
  {
    r := [PopFile];
    for i := 0 to |b|
      invariant r == Backwards(Texts(b[|b| - i..]) + [PopFile])
    {
      var k := |b| - i - 1;
      r := r + [Text(b[k])];
      assert b[k..] == [b[k]] + b[k + 1..];
    }
    assert b[0..] == b;
  }
}
