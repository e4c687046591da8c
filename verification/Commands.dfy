/** The chat commands: what one message text asks for. */
module Commands {
  import opened Text
  import opened Routing

  /** A control-plane request with the fields of its JSON body; GET requests have none. */
  datatype Request = Get(path: string) | Post(path: string, body: map<string, string>)

  /** What the handler does with a text: answer by itself, or make one request. */
  datatype Action =
    | Help | Status | ActiveAlerts | Usage | PolicyUsage | EmptyTask
    | Ask(request: Request)

  /** `s.split(maxsplit=1)` as the first part and what follows it, "" if there is none. */
  function SplitOnce(s: string): (string, string) {
    var a := Lead(s, 0);
    var b := TokenEnd(s, a);
    (s[a..b], LStrip(s[b..]))
  }

  function Decision(id: string, action: string): Request {
    Post("/v1/approvals/" + id + "/decision", map["action" := action, "decided_by" := "feishu", "note" := ""])
  }

  function Policy(fingerprint: string, policy: string): Request {
    Post("/v1/alerts/" + fingerprint + "/policy", map["policy" := policy, "note" := "feishu"])
  }

  function Candidate(id: string, verb: string): Request {
    Post("/v1/candidates/" + id + ("/" + verb), map["decided_by" := "feishu", "note" := ""])
  }

  /** The branches of `_control_plane_command` on a lower-case action and its argument. */
  function Perform(action: string, arg: string): Action {
    if action == "status" then Ask(Get("/status"))
    else if action in {"approve", "reject", "rollback"} && arg != "" then Ask(Decision(arg, action))
    else if action in {"pause", "resume"} then Ask(Post("/v1/control/" + action, map["reason" := "feishu"]))
    else if action == "promote" && arg != "" then Ask(Candidate(arg, "promote"))
    else if action == "policy" && arg != "" then
      var (fingerprint, rest) := SplitOnce(arg);
      var policy := Lower(Strip(rest));
      if policy !in {"auto", "manual", "ignore"} then PolicyUsage else Ask(Policy(Strip(fingerprint), policy))
    else if action == "run" && arg != "" then Ask(Post("/v1/alerts/" + arg + "/run", map[]))
    else if action == "ignore" && arg != "" then Ask(Policy(arg, "ignore"))
    else if action == "evidence" then Ask(Get("/v1/evidence"))
    else if action == "dismiss" && arg != "" then Ask(Candidate(arg, "dismiss"))
    else Usage
  }

  function ControlPlaneCommand(text: string): Action {
    var (first, rest) := SplitOnce(text);
    Perform(Lower(first), Strip(rest))
  }

  function TaskRequest(text: string): Action {
    if Strip(text) == "" then EmptyTask
    else Ask(Post("/v1/tasks", map["prompt" := Strip(text), "repo" := "", "project" := ""]))
  }

  function CommandOrChat(text: string): Action {
    var command := Lower(Strip(text));
    if command == "/help" then Help
    else if command == "/status" then Status
    else if command == "/alerts" then ActiveAlerts
    else if StartsWith(command, "/cp ") then ControlPlaneCommand(Strip(text[4..]))
    else if StartsWith(command, "/task ") then TaskRequest(Strip(text[6..]))
    else TaskRequest(text)
  }

  // ----- printing and parsing

  /** A word of a command: not empty, no whitespace. */
  predicate Word(s: string) { s != "" && NoSpace(s) }

  /** An argument: not empty, but whitespace inside is part of it. */
  predicate Argument(s: string) { s != "" && Trimmed(s) }

  predicate Gap(s: string) { s != "" && Blank(s) }

  lemma SplitFirst(word: string, gap: string, rest: string)
    requires Word(word) && Blank(gap) && (rest != "" ==> Gap(gap) && !IsSpace(rest[0]))
    ensures SplitOnce(word + gap + rest) == (word, rest)
  {
    var s := word + gap + rest;
    LeadIs(s, 0, 0);
    assert forall j :: 0 <= j < |word| ==> s[j] == word[j];
    if |word| < |s| {
      assert gap != "" && s[|word|] == gap[0];
    }
    TokenEndIs(s, 0, |word|);
    assert s[0..|word|] == word;
    assert s[|word|..] == gap + rest;
    LStripBlank(gap, rest);
  }

  /** The text of a command: the prefix in any letter case, one space and more whitespace, the action in
      any case, and an argument after a gap. */
  function Printed(prefix: string, blanks: string, action: string, gap: string, arg: string): string {
    prefix + " " + blanks + action + gap + arg
  }

  predicate Printable(prefix: string, blanks: string, action: string, gap: string, arg: string) {
    && Lower(prefix) == "/cp" && Blank(blanks) && Word(action) && Trimmed(arg)
    && if arg == "" then gap == "" else Gap(gap)
  }

  /** Parsing what was printed finds the action and the argument, whatever the letter case and the
      whitespace between them. */
  lemma ParsePrinted(prefix: string, blanks: string, action: string, gap: string, arg: string)
    requires Printable(prefix, blanks, action, gap, arg)
    ensures CommandOrChat(Printed(prefix, blanks, action, gap, arg)) == Perform(Lower(action), arg)
  {
    var body := action + gap + arg;
    var rest := blanks + body;
    var text := Printed(prefix, blanks, action, gap, arg);
    assert Trimmed(body) by {
      assert body[0] == action[0];
      assert body[|body| - 1] == if arg != "" then arg[|arg| - 1] else action[|action| - 1];
    }
    assert text == prefix + " " + rest;
    CommandPart(prefix, rest, blanks, body);
    SplitFirst(action, gap, arg);
    StripTrimmed(arg);
  }

  lemma CommandPart(prefix: string, rest: string, blanks: string, body: string)
    requires Lower(prefix) == "/cp" && Blank(blanks) && body != "" && Trimmed(body) && rest == blanks + body
    ensures CommandOrChat(prefix + " " + rest) == ControlPlaneCommand(body)
  {
    var text := prefix + " " + rest;
    TextTrimmed(prefix, blanks, body);
    assert Strip(text) == text by { StripTrimmed(text); }
    assert Strip(rest) == body by {
      StripBlanks(blanks, body, "");
      assert blanks + body + "" == rest;
    }
    assert text[4..] == rest;
    NotOtherCommand(Lower(text));
    hide Strip, Lower, StartsWith, ControlPlaneCommand, TaskRequest;
    assert CommandOrChat(text) == ControlPlaneCommand(Strip(text[4..]));
  }

  lemma NotOtherCommand(command: string)
    requires StartsWith(command, "/cp ")
    ensures command != "/help" && command != "/status" && command != "/alerts"
  {
    assert command[1] == command[..4][1] == 'c';
  }

  lemma TextTrimmed(prefix: string, blanks: string, body: string)
    requires Lower(prefix) == "/cp" && body != "" && Trimmed(body)
    ensures var text := prefix + " " + (blanks + body);
            Trimmed(text) && StartsWith(Lower(text), "/cp ") && |text| >= 5 && text[4..] == blanks + body
  {
    var text := prefix + " " + (blanks + body);
    assert |prefix| == 3;
    assert forall j :: 0 <= j < 3 ==> Lower(text)[j] == Lower(prefix)[j];
    assert Lower(text)[3] == ' ';
    assert Lower(text)[..4] == "/cp ";
    assert Lower(prefix)[0] == LowerChar(prefix[0]) == '/';
    assert text[|text| - 1] == body[|body| - 1];
  }

  // ----- the commands one by one

  datatype Decide = Approve | Reject | Rollback

  datatype Setting = Auto | Manual | Ignore

  datatype Command =
    | GetStatus
    | Approval(decide: Decide, id: string)
    | Pause
    | Resume
    | Promote(id: string)
    | SetPolicy(fingerprint: string, setting: Setting)
    | RunFix(fingerprint: string)
    | Evidence
    | Dismiss(id: string)

  function DecideWord(d: Decide): string {
    match d case Approve => "approve" case Reject => "reject" case Rollback => "rollback"
  }

  function SettingWord(s: Setting): string {
    match s case Auto => "auto" case Manual => "manual" case Ignore => "ignore"
  }

  /** The one request each command stands for. */
  function RequestOf(c: Command): Request {
    match c
    case GetStatus => Get("/status")
    case Approval(d, id) =>
      Post("/v1/approvals/" + id + "/decision", map["action" := DecideWord(d), "decided_by" := "feishu", "note" := ""])
    case Pause => Post("/v1/control/pause", map["reason" := "feishu"])
    case Resume => Post("/v1/control/resume", map["reason" := "feishu"])
    case Promote(id) => Post("/v1/candidates/" + id + "/promote", map["decided_by" := "feishu", "note" := ""])
    case SetPolicy(fingerprint, setting) =>
      Post("/v1/alerts/" + fingerprint + "/policy", map["policy" := SettingWord(setting), "note" := "feishu"])
    case RunFix(fingerprint) => Post("/v1/alerts/" + fingerprint + "/run", map[])
    case Evidence => Get("/v1/evidence")
    case Dismiss(id) => Post("/v1/candidates/" + id + "/dismiss", map["decided_by" := "feishu", "note" := ""])
  }

  /** A spelling of a command: its action word and its argument as typed. `/cp ignore fp` and
      `/cp policy fp ignore` spell the same command. */
  ghost predicate Spells(action: string, arg: string, c: Command) {
    match c
    case GetStatus => Lower(action) == "status" && Trimmed(arg)
    case Approval(d, id) => Lower(action) == DecideWord(d) && arg == id && Argument(id)
    case Pause => Lower(action) == "pause" && Trimmed(arg)
    case Resume => Lower(action) == "resume" && Trimmed(arg)
    case Promote(id) => Lower(action) == "promote" && arg == id && Argument(id)
    case SetPolicy(fingerprint, setting) =>
      || (setting.Ignore? && Lower(action) == "ignore" && arg == fingerprint && Argument(fingerprint))
      || (Lower(action) == "policy" && Word(fingerprint) && PolicyArgument(arg, fingerprint, setting))
    case RunFix(fingerprint) => Lower(action) == "run" && arg == fingerprint && Argument(fingerprint)
    case Evidence => Lower(action) == "evidence" && Trimmed(arg)
    case Dismiss(id) => Lower(action) == "dismiss" && arg == id && Argument(id)
  }

  ghost predicate PolicyArgument(arg: string, fingerprint: string, setting: Setting) {
    exists gap, word :: arg == fingerprint + gap + word && Gap(gap) && Word(word) && Lower(word) == SettingWord(setting)
  }

  lemma WordsDiffer()
    ensures "status"[0] == 's' && "approve"[0] == 'a' && "reject"[2] == 'j' && "rollback"[0] == 'r' && "pause"[0] == 'p'
    ensures "resume"[2] == 's' && "promote"[0] == 'p' && "policy"[0] == 'p' && "run"[0] == 'r' && "ignore"[0] == 'i'
    ensures "evidence"[0] == 'e' && "dismiss"[0] == 'd' && "reject"[0] == 'r' && "resume"[0] == 'r'
  {
  }

  lemma PolicyParsed(arg: string, fingerprint: string, setting: Setting)
    requires Word(fingerprint) && PolicyArgument(arg, fingerprint, setting)
    ensures Trimmed(arg) && arg != "" && Perform("policy", arg) == Ask(Policy(fingerprint, SettingWord(setting)))
  {
    var gap, word :| arg == fingerprint + gap + word && Gap(gap) && Word(word) && Lower(word) == SettingWord(setting);
    assert SplitOnce(arg) == (fingerprint, word) by { SplitFirst(fingerprint, gap, word); }
    assert Strip(word) == word && Strip(fingerprint) == fingerprint by {
      StripTrimmed(word);
      StripTrimmed(fingerprint);
    }
    assert arg[0] == fingerprint[0] && arg[|arg| - 1] == word[|word| - 1];
    PolicyBranch(arg, fingerprint, word, setting);
  }

  lemma PolicyBranch(arg: string, fingerprint: string, word: string, setting: Setting)
    requires arg != "" && SplitOnce(arg) == (fingerprint, word)
    requires Strip(word) == word && Strip(fingerprint) == fingerprint && Lower(word) == SettingWord(setting)
    ensures Perform("policy", arg) == Ask(Policy(fingerprint, SettingWord(setting)))
  {
    hide SplitOnce, Strip, Lower;
    WordsDiffer();
  }

  lemma Performed(action: string, arg: string, c: Command)
    requires Spells(action, arg, c)
    ensures Trimmed(arg) && Perform(Lower(action), arg) == Ask(RequestOf(c))
  {
    if c.SetPolicy? {
      PerformedPolicy(action, arg, c);
    } else if c.Approval? {
      WordsDiffer();
    } else {
      PerformedSimply(action, arg, c);
    }
  }

  lemma PerformedPolicy(action: string, arg: string, c: Command)
    requires c.SetPolicy? && Spells(action, arg, c)
    ensures Trimmed(arg) && Perform(Lower(action), arg) == Ask(RequestOf(c))
  {
    WordsDiffer();
    if Lower(action) == "policy" {
      PolicyParsed(arg, c.fingerprint, c.setting);
    }
  }

  lemma PerformedSimply(action: string, arg: string, c: Command)
    requires !c.SetPolicy? && !c.Approval? && Spells(action, arg, c)
    ensures Trimmed(arg) && Perform(Lower(action), arg) == Ask(RequestOf(c))
  {
    hide Lower, Strip, SplitOnce;
    WordsDiffer();
    assert "/" + "promote" == "/promote" && "/" + "dismiss" == "/dismiss";
    assert "/v1/control/" + "pause" == "/v1/control/pause" && "/v1/control/" + "resume" == "/v1/control/resume";
  }

  /** Any spelling of any command, in any letter case and with any extra whitespace inside, causes
      exactly its one request. */
  lemma CommandRoundTrip(prefix: string, blanks: string, action: string, gap: string, arg: string, c: Command)
    requires Spells(action, arg, c) && Printable(prefix, blanks, action, gap, arg)
    ensures CommandOrChat(Printed(prefix, blanks, action, gap, arg)) == Ask(RequestOf(c))
  {
    ParsePrinted(prefix, blanks, action, gap, arg);
    Performed(action, arg, c);
  }

  // ----- everything else

  function TaskPost(prompt: string): Action {
    Ask(Post("/v1/tasks", map["prompt" := prompt, "repo" := "", "project" := ""]))
  }

  lemma LowerIs(s: string, t: string)
    requires |s| == |t| && forall i :: 0 <= i < |s| ==> LowerChar(s[i]) == t[i]
    ensures Lower(s) == t
  {
  }

  /** The three fixed commands, in any letter case and with any whitespace around them, and nothing else. */
  lemma FixedCommands(left: string, word: string, right: string)
    requires Blank(left) && Blank(right) && Word(word)
    ensures Lower(word) == "/help" ==> CommandOrChat(left + word + right) == Help
    ensures Lower(word) == "/status" ==> CommandOrChat(left + word + right) == Status
    ensures Lower(word) == "/alerts" ==> CommandOrChat(left + word + right) == ActiveAlerts
  {
    StripBlanks(left, word, right);
    assert "/help"[1] == 'h' && "/status"[1] == 's' && "/alerts"[1] == 'a';
  }

  /** Not a command: neither one of the fixed words nor the beginning of the two with an argument. */
  predicate PlainText(text: string) {
    var s := Lower(Strip(text));
    s != "/help" && s != "/status" && s != "/alerts" && !StartsWith(s, "/cp ") && !StartsWith(s, "/task ")
  }

  /** Any other text is a task, stripped and otherwise as it is; a blank one asks for nothing. */
  lemma PlainTextIsTask(text: string)
    requires PlainText(text)
    ensures CommandOrChat(text) == if Blank(text) then EmptyTask else TaskPost(Strip(text))
  {
    StripIsEmpty(text);
  }

  lemma StripIsEmpty(s: string)
    ensures Strip(s) == "" <==> Blank(s)
  {
    if Blank(s) {
      StripBlanks(s, "", "");
      assert s + "" + "" == s;
    } else {
      VisibleStrip(s);
      var i :| 0 <= i < |s| && !IsSpace(s[i]);
      ReadableIsVisible(s, i);
    }
  }

  lemma {:induction false} ReadableIsVisible(s: string, i: nat)
    requires i < |s| && !IsSpace(s[i])
    ensures Visible(s) != ""
  {
    if i > 0 {
      ReadableIsVisible(s[1..], i - 1);
    }
  }

  /** "/task", in any letter case and with any whitespace after it, is the same task as its description alone. */
  lemma TaskCommand(prefix: string, blanks: string, description: string)
    requires Lower(prefix) == "/task" && Blank(blanks) && Argument(description)
    ensures CommandOrChat(prefix + " " + blanks + description) == TaskPost(description)
  {
    var text := prefix + " " + blanks + description;
    TaskTrimmed(prefix, blanks, description);
    StripTrimmed(text);
    StripBlanks(blanks, description, "");
    assert blanks + description + "" == text[6..];
    assert StartsWith(Lower(text), "/task ") && Lower(text)[1] == 't';
    StripTrimmed(description);
    hide Strip, Lower;
    assert CommandOrChat(text) == TaskRequest(Strip(text[6..])) by {
      TaskBranch(text);
    }
  }

  lemma TaskBranch(text: string)
    requires Strip(text) == text && StartsWith(Lower(text), "/task ") && Lower(text)[1] == 't'
    ensures CommandOrChat(text) == TaskRequest(Strip(text[6..]))
  {
    var s := Lower(text);
    assert "/help"[1] == 'h' && "/status"[1] == 's' && "/alerts"[1] == 'a';
    assert |s| >= 4 ==> s[..4][1] == 't' && "/cp "[1] == 'c';
  }

  lemma TaskTrimmed(prefix: string, blanks: string, description: string)
    requires Lower(prefix) == "/task" && Argument(description)
    ensures var text := prefix + " " + blanks + description;
            Trimmed(text) && |text| >= 7 && text[6..] == blanks + description
            && StartsWith(Lower(text), "/task ") && Lower(text)[1] == 't'
  {
    var text := prefix + " " + blanks + description;
    assert |prefix| == 5;
    assert forall j :: 0 <= j < 5 ==> Lower(text)[j] == Lower(prefix)[j];
    assert Lower(text)[5] == ' ';
    assert Lower(text)[..6] == "/task ";
    assert Lower(prefix)[0] == LowerChar(prefix[0]) == '/';
    assert text[|text| - 1] == description[|description| - 1];
  }

  /** What is asked of an action word and its argument, the exceptions included: an unknown word, a missing
      argument and a bad setting get a usage text. */
  predicate NeedsArgument(action: string) {
    action in {"approve", "reject", "rollback", "promote", "policy", "run", "ignore", "dismiss"}
  }

  predicate TakesNoArgument(action: string) { action in {"status", "pause", "resume", "evidence"} }

  lemma BadCommandsGetUsage(action: string, arg: string)
    ensures (!NeedsArgument(action) && !TakesNoArgument(action)) || (NeedsArgument(action) && arg == "")
            <==> Perform(action, arg) == Usage
  {
  }

  /** A policy command whose second word is missing or no setting. */
  lemma BadSettingsGetPolicyUsage(fingerprint: string, gap: string, rest: string)
    requires Word(fingerprint) && Blank(gap) && (rest != "" ==> Gap(gap)) && Trimmed(rest)
    ensures Perform("policy", fingerprint + gap + rest) == PolicyUsage
            <==> Lower(rest) != "auto" && Lower(rest) != "manual" && Lower(rest) != "ignore"
  {
    SplitFirst(fingerprint, gap, rest);
    StripTrimmed(rest);
    BadSettingBranch(fingerprint + gap + rest, fingerprint, rest);
  }

  lemma BadSettingBranch(arg: string, fingerprint: string, rest: string)
    requires arg != "" && SplitOnce(arg) == (fingerprint, rest) && Strip(rest) == rest
    ensures Perform("policy", arg) == PolicyUsage
            <==> Lower(rest) != "auto" && Lower(rest) != "manual" && Lower(rest) != "ignore"
  {
    hide SplitOnce, Strip, Lower;
    WordsDiffer();
  }

  // ----- no request stands for two commands

  /** Three characters of the path that tell the commands apart, whatever the ids contain. */
  lemma PathMarks(c: Command)
    ensures var path := RequestOf(c).path;
            match c
            case Approval(_, _) => |path| > 5 && path[5] == 'p'
            case Promote(_) => |path| > 5 && path[4] == 'c' && path[5] == 'a' && path[|path| - 1] == 'e'
            case Dismiss(_) => |path| > 5 && path[4] == 'c' && path[5] == 'a' && path[|path| - 1] == 's'
            case SetPolicy(_, _) => |path| > 5 && path[5] == 'l' && path[|path| - 1] == 'y'
            case RunFix(_) => |path| > 5 && path[5] == 'l' && path[|path| - 1] == 'n'
            case Pause => |path| > 12 && path[5] == 'o' && path[12] == 'p'
            case Resume => |path| > 12 && path[5] == 'o' && path[12] == 'r'
            case _ => true
  {
  }

  lemma MiddleInjective(left: string, a: string, b: string, right: string)
    requires left + a + right == left + b + right
    ensures a == b
  {
    assert |a| == |b|;
    assert a == (left + a + right)[|left|..|left| + |a|];
    assert b == (left + b + right)[|left|..|left| + |b|];
  }

  lemma BodyField(key: string, a: map<string, string>, b: map<string, string>)
    requires a == b && key in a
    ensures key in b && a[key] == b[key]
  {
  }

  /** Different commands cause different requests: no id, whatever it contains, can make one command
      pass for another. */
  lemma RequestsDiffer(c1: Command, c2: Command)
    requires RequestOf(c1) == RequestOf(c2)
    ensures c1 == c2
  {
    PathMarks(c1);
    PathMarks(c2);
    assert "/status"[1] == 's' && "/v1/evidence"[1] == 'v';
    match c1
    case Approval(d, id) =>
      assert c2.Approval?;
      MiddleInjective("/v1/approvals/", id, c2.id, "/decision");
      BodyField("action", RequestOf(c1).body, RequestOf(c2).body);
      WordsDiffer();
    case Promote(id) =>
      assert c2.Promote?;
      MiddleInjective("/v1/candidates/", id, c2.id, "/promote");
    case Dismiss(id) =>
      assert c2.Dismiss?;
      MiddleInjective("/v1/candidates/", id, c2.id, "/dismiss");
    case SetPolicy(fingerprint, setting) =>
      assert c2.SetPolicy?;
      MiddleInjective("/v1/alerts/", fingerprint, c2.fingerprint, "/policy");
      BodyField("policy", RequestOf(c1).body, RequestOf(c2).body);
      assert "auto"[0] == 'a' && "manual"[0] == 'm' && "ignore"[0] == 'i';
    case RunFix(fingerprint) =>
      assert c2.RunFix?;
      MiddleInjective("/v1/alerts/", fingerprint, c2.fingerprint, "/run");
    case _ =>
  }

  /** So one spelling never stands for two commands. */
  lemma SpellingIsUnique(action: string, arg: string, c1: Command, c2: Command)
    requires Spells(action, arg, c1) && Spells(action, arg, c2)
    ensures c1 == c2
  {
    Performed(action, arg, c1);
    Performed(action, arg, c2);
    RequestsDiffer(c1, c2);
  }
}
