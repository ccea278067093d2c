/**
 * The documentation-drift gate of the docu-drift agent.
 *
 * The agent reads the list of files a pull request touches, decides whether
 * code under `routes/` changed without any change under `docs/`, and reports
 * the decision to the code host: a blocking review plus a failing commit
 * status when it finds drift, a passing commit status otherwise.
 *
 * The decision is modelled as pure functions over the list of changed file
 * names. The calls to the code host are modelled as the list of effects the
 * run asks for, and the language model's answer is a parameter.
 */
module DriftGate {

  /** One record of the pull request's file list; the gate reads only its name. */
  datatype FileRecord = FileRecord(filename: string)

  /** An answer that may be missing. */
  datatype Option<T> = None | Some(value: T)

  /** What the gate decides for one pull request. */
  datatype Decision = Drift | Consistent

  /** The event attached to the review posted on drift: it requests changes. */
  datatype ReviewEvent = RequestChanges

  /** A request the run makes to the code host, with the arguments it sends. */
  datatype Effect =
    | PostReview(body: string, event: ReviewEvent)
    | SetStatus(state: string, context: string, description: string)

  /** Names under this directory are code changes. */
  const CodePrefix: string := "routes/"

  /** Names under this directory are documentation changes. */
  const DocsPrefix: string := "docs/"

  /** The fixed first line (and blank line) of every drift review. */
  const DriftHeader: string := "\U{274C} Documentation Drift Detected\n\n"

  /** The context name under which the commit status is reported. */
  const StatusContext: string := "Docu-Drift Agent"

  const FailureState: string := "failure"
  const FailureDescription: string := "Documentation update required"
  const SuccessState: string := "success"
  const SuccessDescription: string := "Documentation is consistent"

  /** The file names of the records, one per record, in the same order. */
  function ChangedNames(files: seq<FileRecord>): (names: seq<string>)
    ensures |names| == |files|
    ensures forall i :: 0 <= i < |files| ==> names[i] == files[i].filename
  {
    if files == [] then [] else [files[0].filename] + ChangedNames(files[1..])
  }

  /**
   * Python's `str.startswith`: `prefix` is an exact, case-sensitive prefix
   * of `s`, compared character by character.
   */
  predicate StartsWith(s: string, prefix: string)
  {
    |prefix| <= |s| && s[..|prefix|] == prefix
  }

  /** The prefix test compares characters one by one, with no case folding. */
  lemma StartsWithByCharacters(s: string, prefix: string)
    ensures StartsWith(s, prefix) <==>
      |prefix| <= |s| && forall k :: 0 <= k < |prefix| ==> s[k] == prefix[k]
  {
  }

  /** Python's `any(f.startswith(prefix) for f in names)`. */
  function AnyStartsWith(names: seq<string>, prefix: string): (b: bool)
    ensures b <==> exists i :: 0 <= i < |names| && StartsWith(names[i], prefix)
  {
    if names == [] then false
    else StartsWith(names[0], prefix) || AnyStartsWith(names[1..], prefix)
  }

  /**
   * The gate: drift exactly when some name is a code change and no name is a
   * documentation change.
   */
  function Decide(changed: seq<string>): (d: Decision)
    ensures d == Drift <==>
      (exists i :: 0 <= i < |changed| && StartsWith(changed[i], CodePrefix)) &&
      !(exists j :: 0 <= j < |changed| && StartsWith(changed[j], DocsPrefix))
  {
    var codeChanged := AnyStartsWith(changed, CodePrefix);
    var docsChanged := AnyStartsWith(changed, DocsPrefix);
    if codeChanged && !docsChanged then Drift else Consistent
  }

  /** The body of the drift review: the fixed header, then the language model's feedback. */
  function ReviewBody(feedback: string): (body: string)
    ensures StartsWith(body, DriftHeader)
    ensures body[|DriftHeader|..] == feedback
  {
    DriftHeader + feedback
  }

  /** The commit status reported for a decision. */
  function StatusFor(d: Decision): (e: Effect)
    ensures e.SetStatus? && e.context == StatusContext
    ensures e.state == FailureState <==> d == Drift
    ensures e.state == SuccessState <==> d == Consistent
    ensures e.description == (if d == Drift then FailureDescription else SuccessDescription)
  {
    match d
    case Drift => SetStatus(FailureState, StatusContext, FailureDescription)
    case Consistent => SetStatus(SuccessState, StatusContext, SuccessDescription)
  }

  /**
   * The gate's condition stated directly over the file records: some record
   * names a code change and none names a documentation change.
   */
  ghost predicate DriftIn(files: seq<FileRecord>)
  {
    && (exists i :: 0 <= i < |files| && StartsWith(files[i].filename, CodePrefix))
    && !(exists j :: 0 <= j < |files| && StartsWith(files[j].filename, DocsPrefix))
  }

  /**
   * One run of the agent over the pull request's file records: the requests
   * it sends to the code host, in order. `reply` stands for the language
   * model's answer, which is asked for only when the gate finds drift: `Some`
   * text, or `None` when the call fails or returns no content, in which case
   * the script stops before sending anything.
   */
  function Run(files: seq<FileRecord>, reply: Option<string>): (effects: seq<Effect>)
    ensures !DriftIn(files) ==>
      effects == [SetStatus(SuccessState, StatusContext, SuccessDescription)]
    ensures DriftIn(files) && reply.None? ==> effects == []
    ensures DriftIn(files) && reply.Some? ==>
      && |effects| == 2
      && effects[0].PostReview? && effects[0].event == RequestChanges
      && StartsWith(effects[0].body, DriftHeader)
      && effects[0].body[|DriftHeader|..] == reply.value
      && effects[1] == SetStatus(FailureState, StatusContext, FailureDescription)
  {
    var changed := ChangedNames(files);
    assert (exists i :: 0 <= i < |files| && StartsWith(files[i].filename, CodePrefix)) <==>
      (exists i :: 0 <= i < |changed| && StartsWith(changed[i], CodePrefix));
    assert (exists j :: 0 <= j < |files| && StartsWith(files[j].filename, DocsPrefix)) <==>
      (exists j :: 0 <= j < |changed| && StartsWith(changed[j], DocsPrefix));
    match Decide(changed)
    case Consistent => [StatusFor(Consistent)]
    case Drift =>
      match reply
      case None => []
      case Some(feedback) => [PostReview(ReviewBody(feedback), RequestChanges), StatusFor(Drift)]
  }

  /**
   * Whenever a run reports a status, it is the status of the gate's decision
   * over the record names, and a review is posted exactly when that decision
   * is drift.
   */
  lemma RunReportsDecision(files: seq<FileRecord>, reply: Option<string>)
    requires Run(files, reply) != []
    ensures var effects := Run(files, reply);
      && effects[|effects| - 1] == StatusFor(Decide(ChangedNames(files)))
      && (|effects| == 2 <==> Decide(ChangedNames(files)) == Drift)
  {
  }

  /** Without drift the language model is not consulted: its reply changes nothing. */
  lemma RunIgnoresReplyWithoutDrift(files: seq<FileRecord>, r1: Option<string>, r2: Option<string>)
    requires !DriftIn(files)
    ensures Run(files, r1) == Run(files, r2)
  {
  }

  /** An empty pull request passes: `any` over nothing is false. */
  lemma EmptyChangeSetIsConsistent()
    ensures Decide([]) == Consistent
  {
  }

  /** Without a code change the gate passes, whatever else changed. */
  lemma NoCodeChangeIsConsistent(changed: seq<string>)
    requires forall i :: 0 <= i < |changed| ==> !StartsWith(changed[i], CodePrefix)
    ensures Decide(changed) == Consistent
  {
  }

  /** `any` over a concatenation is the disjunction of `any` over the parts. */
  lemma {:induction false} AnyStartsWithAppend(xs: seq<string>, ys: seq<string>, prefix: string)
    ensures AnyStartsWith(xs + ys, prefix) == (AnyStartsWith(xs, prefix) || AnyStartsWith(ys, prefix))
  {
    if xs != [] {
      assert (xs + ys)[1..] == xs[1..] + ys;
      AnyStartsWithAppend(xs[1..], ys, prefix);
    } else {
      assert xs + ys == ys;
    }
  }

  /** `any` depends only on which names occur, not on their order or number. */
  lemma {:induction false} AnyStartsWithSameNames(xs: seq<string>, ys: seq<string>, prefix: string)
    requires forall n :: n in xs <==> n in ys
    ensures AnyStartsWith(xs, prefix) == AnyStartsWith(ys, prefix)
  {
    if AnyStartsWith(xs, prefix) {
      var i :| 0 <= i < |xs| && StartsWith(xs[i], prefix);
      assert xs[i] in ys;
      var j :| 0 <= j < |ys| && ys[j] == xs[i];
    }
    if AnyStartsWith(ys, prefix) {
      var j :| 0 <= j < |ys| && StartsWith(ys[j], prefix);
      assert ys[j] in xs;
      var i :| 0 <= i < |xs| && xs[i] == ys[j];
    }
  }

  /**
   * Names that are neither code nor documentation changes never affect the
   * decision: inserting them anywhere leaves it as it was.
   */
  lemma IrrelevantNamesIgnored(before: seq<string>, extra: seq<string>, after: seq<string>)
    requires forall i :: 0 <= i < |extra| ==>
      !StartsWith(extra[i], CodePrefix) && !StartsWith(extra[i], DocsPrefix)
    ensures Decide(before + extra + after) == Decide(before + after)
  {
    AnyStartsWithAppend(before + extra, after, CodePrefix);
    AnyStartsWithAppend(before, extra, CodePrefix);
    AnyStartsWithAppend(before, after, CodePrefix);
    AnyStartsWithAppend(before + extra, after, DocsPrefix);
    AnyStartsWithAppend(before, extra, DocsPrefix);
    AnyStartsWithAppend(before, after, DocsPrefix);
  }

  /** The decision depends only on the set of names. */
  lemma SameNamesSameDecision(xs: seq<string>, ys: seq<string>)
    requires forall n :: n in xs <==> n in ys
    ensures Decide(xs) == Decide(ys)
  {
    AnyStartsWithSameNames(xs, ys, CodePrefix);
    AnyStartsWithSameNames(xs, ys, DocsPrefix);
  }

  /** Reordering the file list does not change the decision. */
  lemma PermutationSameDecision(xs: seq<string>, ys: seq<string>)
    requires multiset(xs) == multiset(ys)
    ensures Decide(xs) == Decide(ys)
  {
    forall n ensures n in xs <==> n in ys {
      assert n in xs <==> n in multiset(xs);
      assert n in ys <==> n in multiset(ys);
    }
    SameNamesSameDecision(xs, ys);
  }

  /** Listing a name that is already present once more does not change the decision. */
  lemma DuplicateSameDecision(before: seq<string>, n: string, after: seq<string>)
    requires n in before + after
    ensures Decide(before + [n] + after) == Decide(before + after)
  {
    forall m ensures m in before + [n] + after <==> m in before + after {
      assert m in before + [n] + after <==> m in before || m == n || m in after;
      assert m in before + after <==> m in before || m in after;
    }
    SameNamesSameDecision(before + [n] + after, before + after);
  }

  /** Adding any documentation change, anywhere in the list, makes the gate pass. */
  lemma DocsChangeMakesConsistent(before: seq<string>, doc: string, after: seq<string>)
    requires StartsWith(doc, DocsPrefix)
    ensures Decide(before + [doc] + after) == Consistent
  {
    var changed := before + [doc] + after;
    assert changed[|before|] == doc;
  }

  /**
   * The prefix test is exact and case-sensitive: a capitalised directory, the
   * directory name without its slash, and a nested `routes/` are not code
   * changes, while a file directly under `routes/` is.
   */
  lemma CodePrefixIsExact()
    ensures !StartsWith("Routes/x", CodePrefix)
    ensures !StartsWith("routes", CodePrefix)
    ensures !StartsWith("src/routes/x", CodePrefix)
    ensures StartsWith("routes/users.py", CodePrefix)
    ensures Decide(["Routes/x", "routes", "src/routes/x"]) == Consistent
    ensures Decide(["routes/users.py"]) == Drift
    ensures Decide(["routes/users.py", "docs/api.md"]) == Consistent
  {
    assert "Routes/x"[0] != CodePrefix[0];
    assert "src/routes/x"[0] != CodePrefix[0];
    assert "routes/users.py"[..|CodePrefix|] == CodePrefix;
    assert "docs/api.md"[..|DocsPrefix|] == DocsPrefix;
    var code := ["routes/users.py", "docs/api.md"];
    assert StartsWith(code[1], DocsPrefix);
  }
}
