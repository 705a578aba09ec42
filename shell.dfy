/** What the commands do to the world outside the process, recorded as a
    trace. Every external tool (shelljs, the Azure helpers, the webpack
    publish, the directory stack, the console reporter) is an action here;
    what a tool answers is passed in to the commands as an outcome. */
module Shell {

  /** One externally visible step of a command. */
  datatype Action =
    | Which(tool: string)                   // shell.which(tool)
    | Exec(command: string)                 // shell.exec(command)
    | RemoveTree(path: string)              // shell.rm("-rf", path)
    | PushDir(path: string)                 // dir.pushd(path)
    | PopDir                                // dir.popd()
    | ConfigurePublicUrl(url: string)       // deployConfig.configurePublicUrl(url)
    | WebpackPublish                        // webpackPublish.run()
    | LoginUser(username: string, secret: string)
    | LoginServicePrincipal(clientId: string, tenantId: string, secret: string)
    | Logout                                // azure.logout()
    | ReportError(message: string)          // echo.error(message)
    | ReportErrors(messages: seq<string>)   // echo.errors(messages)
    | ReportSuccess(message: string)        // echo.success(message)
    | Exit(code: int)                       // shell.exit(code): ends the process

  type Trace = seq<Action>

  /** The command ended the process through shell.exit. */
  predicate Exited(t: Trace)
  {
    |t| > 0 && t[|t| - 1].Exit?
  }

  /** shell.exit ends the process, so no action can follow it. */
  predicate ExitsOnlyAtEnd(t: Trace)
  {
    forall i :: 0 <= i < |t| - 1 ==> !t[i].Exit?
  }

  /** No action of the trace is a call to shell.exit. */
  predicate NeverExits(t: Trace)
  {
    forall i :: 0 <= i < |t| ==> !t[i].Exit?
  }

  /** `a` is performed at some point before `b`. */
  predicate Precedes(t: Trace, a: Action, b: Action)
  {
    exists i, j :: 0 <= i < j < |t| && t[i] == a && t[j] == b
  }

  /** An exit in the second part only, and there only at its end. */
  lemma ExitsOnlyAtEndAppend(a: Trace, b: Trace)
    requires NeverExits(a) && ExitsOnlyAtEnd(b)
    ensures ExitsOnlyAtEnd(a + b)
  {
    forall i | 0 <= i < |a + b| - 1
      ensures !(a + b)[i].Exit?
    {
      if i >= |a| {
        assert (a + b)[i] == b[i - |a|];
      }
    }
  }

  /** An order of actions in a trace holds in any trace that ends with it. */
  lemma PrecedesAppend(a: Trace, b: Trace, x: Action, y: Action)
    requires Precedes(b, x, y)
    ensures Precedes(a + b, x, y)
  {
    var i, j :| 0 <= i < j < |b| && b[i] == x && b[j] == y;
    assert (a + b)[|a| + i] == x && (a + b)[|a| + j] == y;
  }

  predicate IsLogin(a: Action)
  {
    a.LoginUser? || a.LoginServicePrincipal?
  }

  /** The number of logins, of either kind, in a trace. */
  function Logins(t: Trace): (n: nat)
    ensures n <= |t|
  {
    if t == [] then 0
    else (if IsLogin(t[0]) then 1 else 0) + Logins(t[1..])
  }

  /** A trace counts no login exactly when none of its actions is one. */
  lemma {:induction false} NoLogins(t: Trace)
    ensures Logins(t) == 0 <==> forall i :: 0 <= i < |t| ==> !IsLogin(t[i])
  {
    if t != [] {
      NoLogins(t[1..]);
      if Logins(t) == 0 {
        forall i | 0 <= i < |t|
          ensures !IsLogin(t[i])
        {
          if i > 0 {
            assert t[i] == t[1..][i - 1];
          }
        }
      } else if !IsLogin(t[0]) {
        var j :| 0 <= j < |t[1..]| && IsLogin(t[1..][j]);
        assert t[j + 1] == t[1..][j];
      }
    }
  }

  lemma {:induction false} LoginsAppend(t1: Trace, t2: Trace)
    ensures Logins(t1 + t2) == Logins(t1) + Logins(t2)
  {
    if t1 != [] {
      assert (t1 + t2)[0] == t1[0];
      assert (t1 + t2)[1..] == t1[1..] + t2;
      LoginsAppend(t1[1..], t2);
    } else {
      assert t1 + t2 == t2;
    }
  }

  // ---------------------------------------------------------------------------
  // The directory stack
  // ---------------------------------------------------------------------------

  /** The working directory of the process and the directories that pushd saved,
      the most recent last. */
  datatype DirState = DirState(cwd: string, saved: seq<string>)

  /** pushd saves the working directory and enters `d`; popd returns to the
      most recently saved directory. Every other action leaves both alone. */
  function StepDirs(s: DirState, a: Action): DirState
  {
    match a
    case PushDir(d) => DirState(d, s.saved + [s.cwd])
    case PopDir =>
      if s.saved == [] then s
      else DirState(s.saved[|s.saved| - 1], s.saved[..|s.saved| - 1])
    case _ => s
  }

  predicate MovesDirs(a: Action)
  {
    a.PushDir? || a.PopDir?
  }

  /** The directory state after the actions of `t`, in order. */
  function Replay(s: DirState, t: Trace): DirState
    decreases |t|
  {
    if t == [] then s else Replay(StepDirs(s, t[0]), t[1..])
  }

  /** Actions other than pushd and popd leave the directories alone. */
  lemma {:induction false} ReplayWithoutMoves(s: DirState, t: Trace)
    requires forall i :: 0 <= i < |t| ==> !MovesDirs(t[i])
    ensures Replay(s, t) == s
    decreases |t|
  {
    if t != [] {
      ReplayWithoutMoves(s, t[1..]);
    }
  }

  lemma {:induction false} ReplayAppend(s: DirState, t1: Trace, t2: Trace)
    ensures Replay(s, t1 + t2) == Replay(Replay(s, t1), t2)
    decreases |t1|
  {
    if t1 != [] {
      assert (t1 + t2)[0] == t1[0];
      assert (t1 + t2)[1..] == t1[1..] + t2;
      ReplayAppend(StepDirs(s, t1[0]), t1[1..], t2);
    } else {
      assert t1 + t2 == t2;
    }
  }

  lemma ReplaySnoc(s: DirState, t: Trace, a: Action)
    ensures Replay(s, t + [a]) == StepDirs(Replay(s, t), a)
  {
    ReplayAppend(s, t, [a]);
  }

  /** Appending an action that does not move directories keeps the replayed state. */
  lemma Record(s: DirState, t: Trace, a: Action)
    requires !MovesDirs(a)
    ensures Replay(s, t + [a]) == Replay(s, t)
  {
    ReplaySnoc(s, t, a);
  }

  /** A popd right after a pushd restores both the directory and the stack. */
  lemma PushThenPopRestores(s: DirState, d: string)
    ensures StepDirs(StepDirs(s, PushDir(d)), PopDir) == s
  {
    var pushed := StepDirs(s, PushDir(d));
    assert pushed.saved[..|pushed.saved| - 1] == s.saved;
  }

  /** Replaying a trace in which only `m` moves directories. */
  lemma ReplayAround(s: DirState, a: Trace, m: Action, b: Trace)
    requires forall i :: 0 <= i < |a| ==> !MovesDirs(a[i])
    requires forall i :: 0 <= i < |b| ==> !MovesDirs(b[i])
    ensures Replay(s, a + [m] + b) == StepDirs(s, m)
  {
    ReplayAppend(s, a + [m], b);
    ReplaySnoc(s, a, m);
    ReplayWithoutMoves(s, a);
    ReplayWithoutMoves(StepDirs(s, m), b);
  }

  /** The directory stack that `dir.pushd` and `dir.popd` maintain, kept
      with the working directory it changes. */
  class DirectoryStack {
    var cwd: string
    var saved: seq<string>

    function State(): DirState
      reads this
    {
      DirState(cwd, saved)
    }

    constructor (cwd: string)
      ensures this.cwd == cwd && saved == []
    {
      this.cwd := cwd;
      saved := [];
    }

    /** Saves the working directory on the stack and enters `d`. */
    method Pushd(d: string)
      modifies this
      ensures cwd == d && saved == old(saved) + [old(cwd)]
      ensures State() == StepDirs(old(State()), PushDir(d))
    {
      saved := saved + [cwd];
      cwd := d;
    }

    /** Returns to the most recently saved directory and drops it from the
        stack; on an empty stack nothing changes. */
    method Popd()
      modifies this
      ensures old(saved) == [] ==> cwd == old(cwd) && saved == []
      ensures old(saved) != [] ==>
                cwd == old(saved)[|old(saved)| - 1] && saved == old(saved)[..|old(saved)| - 1]
      ensures State() == StepDirs(old(State()), PopDir)
    {
      if saved != [] {
        cwd := saved[|saved| - 1];
        saved := saved[..|saved| - 1];
      }
    }
  }

  // ---------------------------------------------------------------------------
  // Word splitting
  // ---------------------------------------------------------------------------

  /** A word a strictly Posix `sh` reads back unchanged from an unquoted
      command line: not empty, and free of blanks, quotes, the expansion
      characters `$`, `` ` ``, `~`, `*`, `?`, `[`, `]`, the escape `\\`, the
      comment sign `#` and the operators `;`, `&`, `|`, `<`, `>`, `(`, `)`.
      The braces `{` and `}` are excluded too, since bash expands them even
      in its Posix mode. */
  predicate PlainWord(w: string)
  {
    && w != []
    && forall i :: 0 <= i < |w| ==> w[i] !in " \t\n'\"`$~*?[]{}\\#;&|<>()"
  }

  lemma PlainWordHasNoSpace(w: string)
    requires PlainWord(w)
    ensures w != [] && ' ' !in w
  {
    assert forall i :: 0 <= i < |w| ==> w[i] != ' ';
  }

  /** The length of the longest prefix of `s` without a space. */
  function FieldLength(s: string): (n: nat)
    ensures n <= |s|
    ensures forall i :: 0 <= i < n ==> s[i] != ' '
    ensures n < |s| ==> s[n] == ' '
  {
    if s == [] || s[0] == ' ' then 0 else 1 + FieldLength(s[1..])
  }

  /** How a shell splits a command line of plain words into fields: at every
      run of spaces, with no empty field, not even for leading or trailing
      spaces. */
  function Words(s: string): (r: seq<string>)
    ensures forall i :: 0 <= i < |r| ==> r[i] != [] && ' ' !in r[i]
    ensures s != [] && ' ' !in s ==> r == [s]
    decreases |s|
  {
    if s == [] then []
    else if s[0] == ' ' then Words(s[1..])
    else
      var n := FieldLength(s);
      assert n < |s| ==> s[n] in s;
      assert ' ' !in s ==> s[..n] == s && s[n..] == [];
      [s[..n]] + Words(s[n..])
  }

  /** Words joined by single spaces: the command line a shell would split
      back into them. */
  function Unwords(ws: seq<string>): string
    requires ws != []
  {
    if |ws| == 1 then ws[0] else ws[0] + " " + Unwords(ws[1..])
  }

  lemma UnwordsCons(w: string, ws: seq<string>)
    requires ws != []
    ensures Unwords([w] + ws) == w + " " + Unwords(ws)
  {
    assert ([w] + ws)[1..] == ws;
  }

  /** Joining two non-empty runs of words puts one space between them. */
  lemma {:induction false} UnwordsAppend(ws1: seq<string>, ws2: seq<string>)
    requires ws1 != [] && ws2 != []
    ensures Unwords(ws1 + ws2) == Unwords(ws1) + " " + Unwords(ws2)
  {
    if |ws1| == 1 {
      UnwordsCons(ws1[0], ws2);
      assert ws1 == [ws1[0]];
    } else {
      UnwordsAppend(ws1[1..], ws2);
      assert ws1 + ws2 == [ws1[0]] + (ws1[1..] + ws2);
      UnwordsCons(ws1[0], ws1[1..] + ws2);
      UnwordsCons(ws1[0], ws1[1..]);
      assert ws1 == [ws1[0]] + ws1[1..];
    }
  }

  /** Splitting at the first space, when the first word is not empty and
      has none. */
  lemma WordsAtSpace(a: string, b: string)
    requires a != [] && ' ' !in a
    ensures Words(a + " " + b) == [a] + Words(b)
  {
    var s := a + " " + b;
    var n := FieldLength(s);
    assert s[|a|] == ' ';
    assert n == |a|;
    assert s[..n] == a;
    assert s[n..][1..] == b;
  }

  /** Non-empty words without spaces survive being joined and split again. */
  lemma {:induction false} WordsUnwords(ws: seq<string>)
    requires ws != []
    requires forall i :: 0 <= i < |ws| ==> ws[i] != [] && ' ' !in ws[i]
    ensures Words(Unwords(ws)) == ws
  {
    if |ws| > 1 {
      WordsUnwords(ws[1..]);
      WordsAtSpace(ws[0], Unwords(ws[1..]));
    }
  }
}
