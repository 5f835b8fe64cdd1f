/**
 * The reconciliation table of the `list` command (cmd/list.go): one row per
 * catalog label, matched against the destination's contexts by the "@label"
 * suffix, followed by one row per context no label claimed. Go visits maps in
 * an unspecified order; each visit here is an arbitrary choice.
 */
module ListCmd {
  import opened Wrappers
  import opened Strings
  import Cfg
  import Kubeconfig

  /** A table row (Go's listHead). */
  datatype Row = Row(configLabel: string, sourceUrl: string, kubernetesContext: string, apiAddress: string)

  const Header: Row := Row("ConfigLabel", "SourceUrl", "KubernetesContext", "ApiAddress")

  /** The server of the cluster a context points at: a context with no such cluster is a nil dereference. */
  datatype ListError = DanglingCluster(context: string)

  /** `c` names a context whose cluster exists, and `server` is that cluster's server. */
  predicate ServedBy(dest: Kubeconfig.Document, c: string, server: string) {
    c in dest.contexts && dest.contexts[c].cluster in dest.clusters &&
    dest.clusters[dest.contexts[c].cluster].server == server
  }

  /**
   * The row of a catalog label: its source URL and either nothing more, or a
   * context whose name ends in "@label" together with that context's server.
   */
  ghost predicate LabelRow(row: Row, sources: map<string, Cfg.Source>, dest: Kubeconfig.Document) {
    && row.configLabel in sources
    && row.sourceUrl == sources[row.configLabel].source
    && (|| (row.kubernetesContext == "" && row.apiAddress == "")
        || (ClaimsLabel(row.kubernetesContext, row.configLabel) &&
            ServedBy(dest, row.kubernetesContext, row.apiAddress)))
  }

  /** The context name `c` ends in "@" followed by the label `l`. */
  ghost predicate ClaimsLabel(c: string, l: string) {
    exists name :: c == name + "@" + l
  }

  /** Claiming a label is having "@label" as a suffix. */
  lemma ClaimsLabelSuffix(c: string, l: string)
    ensures ClaimsLabel(c, l) <==> HasSuffix(c, "@" + l)
  {
    if HasSuffix(c, "@" + l) {
      assert c == c[..|c| - |l| - 1] + "@" + l;
    }
    if ClaimsLabel(c, l) {
      var name :| c == name + "@" + l;
      assert c[|c| - |l| - 1..] == "@" + l;
    }
  }

  /** The row of a context no label claimed: no label, no source, and the context's server. */
  predicate UnmanagedRow(row: Row, dest: Kubeconfig.Document) {
    row.configLabel == "" && row.sourceUrl == "" && ServedBy(dest, row.kubernetesContext, row.apiAddress)
  }

  /** The context names the rows carry, the empty name included. */
  function ContextsOf(rows: seq<Row>): set<string> {
    if rows == [] then {} else ContextsOf(rows[..|rows| - 1]) + {rows[|rows| - 1].kubernetesContext}
  }

  /** The labels the rows carry. */
  function LabelsOf(rows: seq<Row>): set<string> {
    if rows == [] then {} else LabelsOf(rows[..|rows| - 1]) + {rows[|rows| - 1].configLabel}
  }

  lemma ColumnsAppend(rows: seq<Row>, row: Row)
    ensures ContextsOf(rows + [row]) == ContextsOf(rows) + {row.kubernetesContext}
    ensures LabelsOf(rows + [row]) == LabelsOf(rows) + {row.configLabel}
  {
    assert (rows + [row])[..|rows|] == rows;
  }

  /** Every row's context and label are in the columns. */
  lemma {:induction false} ColumnsContain(rows: seq<Row>)
    ensures forall i :: 0 <= i < |rows| ==> rows[i].kubernetesContext in ContextsOf(rows)
    ensures forall i :: 0 <= i < |rows| ==> rows[i].configLabel in LabelsOf(rows)
  {
    if rows != [] {
      var prefix := rows[..|rows| - 1];
      ColumnsContain(prefix);
      assert forall i :: 0 <= i < |rows| - 1 ==> rows[i] == prefix[i];
    }
  }

  /** A carried context is the context of some row. */
  lemma {:induction false} ContextsOfRows(rows: seq<Row>, c: string)
    requires c in ContextsOf(rows)
    ensures exists i :: 0 <= i < |rows| && rows[i].kubernetesContext == c
  {
    if c != rows[|rows| - 1].kubernetesContext {
      ContextsOfRows(rows[..|rows| - 1], c);
      var i :| 0 <= i < |rows| - 1 && rows[..|rows| - 1][i].kubernetesContext == c;
      assert rows[i].kubernetesContext == c;
    }
  }

  /** A carried label is the label of some row. */
  lemma {:induction false} LabelsOfRows(rows: seq<Row>, l: string)
    requires l in LabelsOf(rows)
    ensures exists i :: 0 <= i < |rows| && rows[i].configLabel == l
  {
    if l != rows[|rows| - 1].configLabel {
      LabelsOfRows(rows[..|rows| - 1], l);
      var i :| 0 <= i < |rows| - 1 && rows[..|rows| - 1][i].configLabel == l;
      assert rows[i].configLabel == l;
    }
  }

  /** Rows with pairwise different labels carry as many labels as there are rows. */
  lemma {:induction false} LabelsCount(rows: seq<Row>)
    requires LabelsDistinct(rows)
    ensures |LabelsOf(rows)| == |rows|
  {
    if rows != [] {
      var prefix := rows[..|rows| - 1];
      assert forall i :: 0 <= i < |prefix| ==> prefix[i] == rows[i];
      LabelsCount(prefix);
      if rows[|rows| - 1].configLabel in LabelsOf(prefix) {
        LabelsOfRows(prefix, rows[|rows| - 1].configLabel);
      }
    }
  }

  /** The contexts the label rows claimed: every non-empty context name among them. */
  function Claimed(rows: seq<Row>): set<string> {
    ContextsOf(rows) - {""}
  }

  /** No two rows name the same non-empty context. */
  predicate ContextsDistinct(rows: seq<Row>) {
    forall i, j :: 0 <= i < j < |rows| && rows[i].kubernetesContext != "" ==>
      rows[i].kubernetesContext != rows[j].kubernetesContext
  }

  /** No two rows carry the same label. */
  predicate LabelsDistinct(rows: seq<Row>) {
    forall i, j :: 0 <= i < j < |rows| ==> rows[i].configLabel != rows[j].configLabel
  }

  /** Appending a row whose context is new keeps the context column free of repeats. */
  lemma ContextsDistinctAppend(rows: seq<Row>, row: Row)
    requires ContextsDistinct(rows)
    requires row.kubernetesContext == "" || row.kubernetesContext !in ContextsOf(rows)
    ensures ContextsDistinct(rows + [row])
  {
    ColumnsContain(rows);
    var longer := rows + [row];
    forall i, j | 0 <= i < j < |longer| && longer[i].kubernetesContext != ""
      ensures longer[i].kubernetesContext != longer[j].kubernetesContext
    {
      if j == |rows| {
        assert longer[i] == rows[i] && longer[j] == row;
      }
    }
  }

  /** Appending a row whose label is new keeps the label column free of repeats. */
  lemma LabelsDistinctAppend(rows: seq<Row>, row: Row)
    requires LabelsDistinct(rows)
    requires row.configLabel !in LabelsOf(rows)
    ensures LabelsDistinct(rows + [row])
  {
    ColumnsContain(rows);
    var longer := rows + [row];
    forall i, j | 0 <= i < j < |longer|
      ensures longer[i].configLabel != longer[j].configLabel
    {
      if j == |rows| {
        assert longer[i] == rows[i] && longer[j] == row;
      }
    }
  }

  /** Deleting a claimed context from the working copy keeps it the remainder of the claims. */
  lemma RemainsAfterClaim(working: map<string, Kubeconfig.Context>, contexts: map<string, Kubeconfig.Context>,
                          gone: set<string>, c: string)
    requires Remains(working, contexts, gone)
    ensures Remains(working - {c}, contexts, gone + {c})
  {
  }

  /** Moving one element from `pending` to `done` keeps them a partition of `all`. */
  lemma MoveOne<T>(pending: set<T>, done: set<T>, all: set<T>, x: T)
    requires x in pending && pending !! done && pending + done == all
    ensures (pending - {x}) !! (done + {x}) && (pending - {x}) + (done + {x}) == all
  {
  }

  /** `working` is what is left of `contexts` once the keys in `gone` are deleted. */
  predicate Remains(working: map<string, Kubeconfig.Context>, contexts: map<string, Kubeconfig.Context>, gone: set<string>) {
    working == contexts - gone
  }

  /** Every entry of `working` is the destination's own context of that name. */
  predicate Within(working: map<string, Kubeconfig.Context>, contexts: map<string, Kubeconfig.Context>) {
    forall c :: c in working ==> c in contexts && working[c] == contexts[c]
  }

  // ----- The inner loop of lines 75-86 -----

  /**
   * The context the inner loop matches as written, when the working copy is
   * visited in `order`: the loop body ends in an unconditional break, so only
   * the first context visited is ever compared with "@label".
   */
  function ExaminedAsWritten(labelName: string, order: seq<string>): (found: string)
    ensures found != "" ==> order != [] && found == order[0] && HasSuffix(found, "@" + labelName)
    ensures found == "" && order != [] ==> !HasSuffix(order[0], "@" + labelName)
  {
    if order != [] && HasSuffix(order[0], "@" + labelName) then order[0] else ""
  }

  /** Visiting "a@x" first hides the context "b@y" from the label "y", although it ends in "@y". */
  lemma BreakMissesLaterMatch()
    ensures HasSuffix("b@y", "@y")
    ensures ExaminedAsWritten("y", ["a@x", "b@y"]) == ""
  {
    assert "b@y"[1..] == "@y";
    assert "a@x"[1..] != "@y" by { assert "a@x"[2] == 'x'; }
  }

  /**
   * One turn of the label loop as written: the inner loop examines only the
   * first context the map iteration visits (an arbitrary one) and breaks,
   * whether or not it matched. That context is matched exactly when it ends
   * in "@label".
   */
  method LabelTurnAsWritten(labelName: string, source: Cfg.Source, working: map<string, Kubeconfig.Context>,
                            dest: Kubeconfig.Document)
    returns (r: Result<(Row, map<string, Kubeconfig.Context>), ListError>)
    requires Within(working, dest.contexts)
    ensures r.Failure? ==>
      r.error.context in working && dest.contexts[r.error.context].cluster !in dest.clusters
    ensures Kubeconfig.ClustersResolve(dest) ==> r.Success?
    ensures r.Success? ==>
      var (row, remaining) := r.value;
      && row.configLabel == labelName && row.sourceUrl == source.source
      && (|| (row.kubernetesContext == "" && row.apiAddress == "")
          || (row.kubernetesContext in working &&
              HasSuffix(row.kubernetesContext, "@" + labelName) &&
              ServedBy(dest, row.kubernetesContext, row.apiAddress)))
      && remaining == if row.kubernetesContext != "" then working - {row.kubernetesContext} else working
    ensures r.Success? && r.value.0.kubernetesContext == "" && working != map[] ==>
      exists c :: c in working && !HasSuffix(c, "@" + labelName)
    ensures working == map[] ==> r == Success((Row(labelName, source.source, "", ""), working))
  {
    var row := Row(labelName, source.source, "", "");
    var remaining := working;
    if working != map[] {
      var c :| c in working;
      if HasSuffix(c, "@" + labelName) {
        var context := working[c];
        if context.cluster !in dest.clusters {
          return Failure(DanglingCluster(c));
        }
        row := Row(labelName, source.source, c, dest.clusters[context.cluster].server);
        remaining := remaining - {c};
      }
    }
    return Success((row, remaining));
  }

  /**
   * The inner loop as evidently intended: scan the contexts in `order` and
   * stop at the first one that ends in "@label".
   */
  function ExaminedIntended(labelName: string, order: seq<string>): (found: string)
    ensures found != "" ==> found in order && HasSuffix(found, "@" + labelName)
    ensures found == "" ==> forall i :: 0 <= i < |order| ==> !HasSuffix(order[i], "@" + labelName)
    decreases |order|
  {
    if order == [] then ""
    else if HasSuffix(order[0], "@" + labelName) then order[0]
    else ExaminedIntended(labelName, order[1..])
  }

  /**
   * Scanning the contexts of a working copy in any visiting order finds
   * nothing exactly when no context of it ends in "@label", which is when
   * LabelTurn leaves the label unmatched.
   */
  lemma IntendedScanMatchesLabelTurn(labelName: string, order: seq<string>, working: map<string, Kubeconfig.Context>)
    requires forall c :: c in working <==> c in order
    ensures ExaminedIntended(labelName, order) == "" <==>
      forall c :: c in working ==> !HasSuffix(c, "@" + labelName)
  {
    if ExaminedIntended(labelName, order) == "" {
      forall c | c in working
        ensures !HasSuffix(c, "@" + labelName)
      {
        var i :| 0 <= i < |order| && order[i] == c;
      }
    }
  }

  /** Where the written loop finds a match, the intended scan finds the same one. */
  lemma IntendedExtendsWritten(labelName: string, order: seq<string>)
    ensures ExaminedAsWritten(labelName, order) != "" ==>
      ExaminedIntended(labelName, order) == ExaminedAsWritten(labelName, order)
  {
  }

  /**
   * One turn of the label loop (lines 74-94), with the inner loop as
   * intended (see README, Findings): some context of the working copy that
   * ends in "@label" is matched, if there is one (which one depends on Go's
   * map order). Its row carries its server and it is deleted from the working
   * copy; without a match the row carries only label and source, and nothing
   * is deleted.
   */
  method LabelTurn(labelName: string, source: Cfg.Source, working: map<string, Kubeconfig.Context>,
                   dest: Kubeconfig.Document)
    returns (r: Result<(Row, map<string, Kubeconfig.Context>), ListError>)
    requires Within(working, dest.contexts)
    ensures r.Failure? ==>
      r.error.context in working && dest.contexts[r.error.context].cluster !in dest.clusters
    ensures Kubeconfig.ClustersResolve(dest) ==> r.Success?
    ensures r.Success? ==>
      var (row, remaining) := r.value;
      && row.configLabel == labelName && row.sourceUrl == source.source
      && (|| (row.kubernetesContext == "" && row.apiAddress == "")
          || (row.kubernetesContext in working &&
              ClaimsLabel(row.kubernetesContext, labelName) &&
              ServedBy(dest, row.kubernetesContext, row.apiAddress)))
      && remaining == if row.kubernetesContext != "" then working - {row.kubernetesContext} else working
    ensures r.Success? && r.value.0.kubernetesContext == "" ==>
      forall c :: c in working ==> !HasSuffix(c, "@" + labelName)
    ensures (exists c :: c in working && HasSuffix(c, "@" + labelName)) && r.Success? ==>
      r.value.0.kubernetesContext != ""
    ensures working == map[] ==> r == Success((Row(labelName, source.source, "", ""), working))
  {
    var found := "";
    var row := Row(labelName, source.source, "", "");
    if exists c :: c in working && HasSuffix(c, "@" + labelName) {
      var c :| c in working && HasSuffix(c, "@" + labelName);
      assert c == c[..|c| - |labelName| - 1] + "@" + labelName;
      found := c;
      var context := working[c];
      if context.cluster !in dest.clusters {
        return Failure(DanglingCluster(c));
      }
      row := Row(labelName, source.source, c, dest.clusters[context.cluster].server);
    }
    var remaining := working;
    if found != "" {
      remaining := remaining - {found};
    }
    return Success((row, remaining));
  }

  /**
   * What the label loop keeps: one row per label handled so far, labels and
   * non-empty contexts never repeated, and the working copy of the contexts
   * without the ones already claimed.
   */
  ghost predicate LabelLoop(rows: seq<Row>, working: map<string, Kubeconfig.Context>, done: set<string>,
                      sources: map<string, Cfg.Source>, dest: Kubeconfig.Document) {
    && (forall i :: 0 <= i < |rows| ==> LabelRow(rows[i], sources, dest))
    && LabelsOf(rows) == done
    && LabelsDistinct(rows)
    && ContextsDistinct(rows)
    && Remains(working, dest.contexts, Claimed(rows))
    && Within(working, dest.contexts)
  }

  /** One turn of the label loop: a new label's row, and its context (if any) deleted from the working copy. */
  lemma LabelStep(rows: seq<Row>, working: map<string, Kubeconfig.Context>, done: set<string>,
                  sources: map<string, Cfg.Source>, dest: Kubeconfig.Document, labelName: string, row: Row)
    requires LabelLoop(rows, working, done, sources, dest)
    requires labelName in sources && labelName !in done && row.configLabel == labelName
    requires row.sourceUrl == sources[row.configLabel].source
    requires || (row.kubernetesContext == "" && row.apiAddress == "")
             || (row.kubernetesContext in working &&
                 ClaimsLabel(row.kubernetesContext, row.configLabel) &&
                 ServedBy(dest, row.kubernetesContext, row.apiAddress))
    ensures LabelLoop(rows + [row],
                      if row.kubernetesContext != "" then working - {row.kubernetesContext} else working,
                      done + {labelName}, sources, dest)
  {
    assert LabelRow(row, sources, dest);
    ColumnsAppend(rows, row);
    ContextsDistinctAppend(rows, row);
    LabelsDistinctAppend(rows, row);
    AllLabelAppend(rows, row, sources, dest);
    if row.kubernetesContext != "" {
      RemainsAfterClaim(working, dest.contexts, Claimed(rows), row.kubernetesContext);
      assert Claimed(rows + [row]) == Claimed(rows) + {row.kubernetesContext};
    } else {
      assert Claimed(rows + [row]) == Claimed(rows);
    }
  }

  /** No context left in the working copy ends in "@label" for a label whose row matched nothing. */
  predicate Unmatched(rows: seq<Row>, working: map<string, Kubeconfig.Context>) {
    forall i, c :: 0 <= i < |rows| && rows[i].kubernetesContext == "" && c in working ==>
      !HasSuffix(c, "@" + rows[i].configLabel)
  }

  /** A turn keeps Unmatched: the working copy only shrinks, and a label-only row had no candidate. */
  lemma UnmatchedStep(rows: seq<Row>, working: map<string, Kubeconfig.Context>, row: Row,
                      remaining: map<string, Kubeconfig.Context>)
    requires Unmatched(rows, working)
    requires remaining.Keys <= working.Keys
    requires row.kubernetesContext == "" ==> forall c :: c in working ==> !HasSuffix(c, "@" + row.configLabel)
    ensures Unmatched(rows + [row], remaining)
  {
    var longer := rows + [row];
    forall i, c | 0 <= i < |longer| && longer[i].kubernetesContext == "" && c in remaining
      ensures !HasSuffix(c, "@" + longer[i].configLabel)
    {
      if i < |rows| {
        assert longer[i] == rows[i];
      }
    }
  }

  lemma AllLabelAppend(rows: seq<Row>, row: Row, sources: map<string, Cfg.Source>, dest: Kubeconfig.Document)
    requires forall i :: 0 <= i < |rows| ==> LabelRow(rows[i], sources, dest)
    requires LabelRow(row, sources, dest)
    ensures forall i :: 0 <= i < |rows + [row]| ==> LabelRow((rows + [row])[i], sources, dest)
  {
  }

  /**
   * The label loop of lines 73-95: one row per label, a matched context
   * deleted from the working copy of the destination's contexts.
   */
  method LabelRows(sources: map<string, Cfg.Source>, dest: Kubeconfig.Document)
    returns (r: Result<(seq<Row>, map<string, Kubeconfig.Context>), ListError>)
    ensures r.Failure? ==>
      r.error.context in dest.contexts && dest.contexts[r.error.context].cluster !in dest.clusters
    ensures Kubeconfig.ClustersResolve(dest) ==> r.Success?
    ensures r.Success? ==> LabelLoop(r.value.0, r.value.1, sources.Keys, sources, dest)
    ensures r.Success? ==> Unmatched(r.value.0, r.value.1)
  {
    var rows: seq<Row> := [];
    var working := dest.contexts;
    var pending := sources.Keys;
    ghost var done: set<string> := {};
    assert Remains(working, dest.contexts, Claimed(rows));

    while pending != {}
      invariant pending !! done && pending + done == sources.Keys
      invariant LabelLoop(rows, working, done, sources, dest)
      invariant Unmatched(rows, working)
      decreases pending
    {
      var labelName :| labelName in pending;
      var turn := LabelTurn(labelName, sources[labelName], working, dest);
      if turn.Failure? {
        return Failure(turn.error);
      }
      var (row, remaining) := turn.value;
      LabelStep(rows, working, done, sources, dest, labelName, row);
      UnmatchedStep(rows, working, row, remaining);
      MoveOne(pending, done, sources.Keys, labelName);
      rows, working := rows + [row], remaining;
      pending := pending - {labelName};
      done := done + {labelName};
    }
    assert done == sources.Keys;
    return Success((rows, working));
  }

  /** What the loop over the remaining contexts keeps: one unmanaged row per context emitted, none repeated. */
  predicate UnmanagedLoop(rows: seq<Row>, emitted: set<string>, dest: Kubeconfig.Document) {
    && |rows| == |emitted|
    && (forall i :: 0 <= i < |rows| ==> UnmanagedRow(rows[i], dest))
    && ContextsOf(rows) == emitted
    && ContextsDistinct(rows)
  }

  lemma UnmanagedStep(rows: seq<Row>, emitted: set<string>, dest: Kubeconfig.Document, row: Row)
    requires UnmanagedLoop(rows, emitted, dest)
    requires UnmanagedRow(row, dest) && row.kubernetesContext !in emitted
    ensures UnmanagedLoop(rows + [row], emitted + {row.kubernetesContext}, dest)
  {
    ColumnsAppend(rows, row);
    ContextsDistinctAppend(rows, row);
    assert forall i :: 0 <= i < |rows| ==> (rows + [row])[i] == rows[i];
  }

  /** The loop of lines 96-103: one row for every context still in the working copy. */
  method UnmanagedRows(working: map<string, Kubeconfig.Context>, dest: Kubeconfig.Document)
    returns (r: Result<seq<Row>, ListError>)
    requires forall c :: c in working ==> c in dest.contexts && working[c] == dest.contexts[c]
    ensures r.Failure? ==>
      r.error.context in working && dest.contexts[r.error.context].cluster !in dest.clusters
    ensures Kubeconfig.ClustersResolve(dest) ==> r.Success?
    ensures r.Success? ==> UnmanagedLoop(r.value, working.Keys, dest)
  {
    var rows: seq<Row> := [];
    var rest := working.Keys;
    ghost var emitted: set<string> := {};
    while rest != {}
      invariant rest !! emitted && rest + emitted == working.Keys
      invariant UnmanagedLoop(rows, emitted, dest)
      decreases rest
    {
      var c :| c in rest;
      var context := working[c];
      if context.cluster !in dest.clusters {
        return Failure(DanglingCluster(c));
      }
      var row := Row("", "", c, dest.clusters[context.cluster].server);
      UnmanagedStep(rows, emitted, dest, row);
      MoveOne(rest, emitted, working.Keys, c);
      rows := rows + [row];
      rest := rest - {c};
      emitted := emitted + {row.kubernetesContext};
    }
    assert emitted == working.Keys;
    return Success(rows);
  }

  /** The label section: one row per catalog label, every label exactly once. */
  ghost predicate LabelSection(rows: seq<Row>, sources: map<string, Cfg.Source>, dest: Kubeconfig.Document) {
    && (forall i :: 0 <= i < |rows| ==> LabelRow(rows[i], sources, dest))
    && LabelsDistinct(rows)
    && LabelsOf(rows) == sources.Keys
  }

  /** The unmanaged section: one row per context outside `claimed`, every such context exactly once. */
  ghost predicate UnmanagedSection(rows: seq<Row>, claimed: set<string>, dest: Kubeconfig.Document) {
    && (forall i :: 0 <= i < |rows| ==> UnmanagedRow(rows[i], dest))
    && ContextsOf(rows) == dest.contexts.Keys - claimed
    && |rows| == |dest.contexts.Keys - claimed|
  }

  /** No unmanaged row names a context ending in "@label" for a label whose row matched nothing. */
  predicate NoMissedContexts(labelled: seq<Row>, unmanaged: seq<Row>) {
    forall i, j :: 0 <= i < |labelled| && labelled[i].kubernetesContext == "" && 0 <= j < |unmanaged| ==>
      !HasSuffix(unmanaged[j].kubernetesContext, "@" + labelled[i].configLabel)
  }

  /** The whole table as listCtx builds it: header, label section, unmanaged section. */
  ghost predicate TableOf(table: seq<Row>, sources: map<string, Cfg.Source>, dest: Kubeconfig.Document) {
    var n := |sources|;
    && |table| >= 1 + n
    && table[0] == Header
    && LabelSection(table[1..n + 1], sources, dest)
    && UnmanagedSection(table[n + 1..], Claimed(table[1..n + 1]), dest)
    && ContextsDistinct(table[1..])
  }

  /** The table has the header, one row per label and one row per context no label claimed. */
  lemma TableSize(table: seq<Row>, sources: map<string, Cfg.Source>, dest: Kubeconfig.Document)
    requires TableOf(table, sources, dest)
    ensures |table| == 1 + |sources| + |dest.contexts.Keys - Claimed(table[1..|sources| + 1])|
  {
    var n := |sources|;
    assert |table[n + 1..]| == |table| - n - 1;
  }

  /** A context is claimed by a row after the header or, failing that, carried by a row after the label rows. */
  lemma SectionsCover(table: seq<Row>, n: nat, dest: Kubeconfig.Document, c: string)
    requires |table| >= n + 1
    requires ContextsOf(table[n + 1..]) == dest.contexts.Keys - Claimed(table[1..n + 1])
    requires c in dest.contexts
    ensures exists i :: 1 <= i < |table| && table[i].kubernetesContext == c
  {
    var labelled, unmanaged := table[1..n + 1], table[n + 1..];
    if c in Claimed(labelled) {
      ContextsOfRows(labelled, c);
      var i :| 0 <= i < |labelled| && labelled[i].kubernetesContext == c;
      assert table[i + 1] == labelled[i];
    } else {
      ContextsOfRows(unmanaged, c);
      var j :| 0 <= j < |unmanaged| && unmanaged[j].kubernetesContext == c;
      assert table[j + n + 1] == unmanaged[j];
    }
  }

  /** Every context of the destination shows up in some row, claimed by a label or unmanaged. */
  lemma TableCoversContexts(table: seq<Row>, sources: map<string, Cfg.Source>, dest: Kubeconfig.Document, c: string)
    requires TableOf(table, sources, dest)
    requires c in dest.contexts
    ensures exists i :: 1 <= i < |table| && table[i].kubernetesContext == c
  {
    var n := |sources|;
    assert UnmanagedSection(table[n + 1..], Claimed(table[1..n + 1]), dest);
    SectionsCover(table, n, dest, c);
  }

  lemma LabelSectionOf(rows: seq<Row>, working: map<string, Kubeconfig.Context>,
                       sources: map<string, Cfg.Source>, dest: Kubeconfig.Document)
    requires LabelLoop(rows, working, sources.Keys, sources, dest)
    ensures LabelSection(rows, sources, dest) && |rows| == |sources|
  {
    LabelsCount(rows);
  }

  lemma UnmanagedSectionOf(unmanaged: seq<Row>, rows: seq<Row>, working: map<string, Kubeconfig.Context>,
                           dest: Kubeconfig.Document)
    requires UnmanagedLoop(unmanaged, working.Keys, dest)
    requires Remains(working, dest.contexts, Claimed(rows))
    ensures UnmanagedSection(unmanaged, Claimed(rows), dest)
  {
    assert working.Keys == dest.contexts.Keys - Claimed(rows);
  }

  /** Label rows and unmanaged rows never share a non-empty context. */
  lemma DistinctAcross(rows: seq<Row>, unmanaged: seq<Row>, dest: Kubeconfig.Document)
    requires ContextsDistinct(rows) && ContextsDistinct(unmanaged)
    requires ContextsOf(unmanaged) == dest.contexts.Keys - Claimed(rows)
    ensures ContextsDistinct(rows + unmanaged)
  {
    ColumnsContain(rows);
    ColumnsContain(unmanaged);
    var both := rows + unmanaged;
    forall i, j | 0 <= i < j < |both| && both[i].kubernetesContext != ""
      ensures both[i].kubernetesContext != both[j].kubernetesContext
    {
      if j < |rows| {
        assert both[i] == rows[i] && both[j] == rows[j];
      } else if i >= |rows| {
        assert both[i] == unmanaged[i - |rows|] && both[j] == unmanaged[j - |rows|];
      } else {
        assert both[i] == rows[i] && both[j] == unmanaged[j - |rows|];
      }
    }
  }

  lemma TableSlices(rows: seq<Row>, unmanaged: seq<Row>)
    ensures ([Header] + rows + unmanaged)[0] == Header
    ensures ([Header] + rows + unmanaged)[1..|rows| + 1] == rows
    ensures ([Header] + rows + unmanaged)[|rows| + 1..] == unmanaged
    ensures ([Header] + rows + unmanaged)[1..] == rows + unmanaged
  {
    var table := [Header] + rows + unmanaged;
    assert table[1..|rows| + 1] == rows;
    assert table[|rows| + 1..] == unmanaged;
    assert table[1..] == rows + unmanaged;
  }

  /** The unmanaged rows are the contexts left over, so none of them was a candidate for a label-only row. */
  lemma NoMissedContextsOf(rows: seq<Row>, working: map<string, Kubeconfig.Context>, unmanaged: seq<Row>,
                           dest: Kubeconfig.Document)
    requires Unmatched(rows, working)
    requires UnmanagedLoop(unmanaged, working.Keys, dest)
    ensures NoMissedContexts(rows, unmanaged)
  {
    ColumnsContain(unmanaged);
  }

  /** The header, the label rows and the unmanaged rows together form the table. */
  lemma Assemble(sources: map<string, Cfg.Source>, dest: Kubeconfig.Document,
                 rows: seq<Row>, working: map<string, Kubeconfig.Context>, unmanaged: seq<Row>)
    requires LabelLoop(rows, working, sources.Keys, sources, dest)
    requires UnmanagedLoop(unmanaged, working.Keys, dest)
    requires Unmatched(rows, working)
    ensures TableOf([Header] + rows + unmanaged, sources, dest)
    ensures NoMissedContexts(([Header] + rows + unmanaged)[1..|sources| + 1], ([Header] + rows + unmanaged)[|sources| + 1..])
  {
    LabelSectionOf(rows, working, sources, dest);
    NoMissedContextsOf(rows, working, unmanaged, dest);
    TableSlices(rows, unmanaged);
    assert NoMissedContexts(([Header] + rows + unmanaged)[1..|sources| + 1], ([Header] + rows + unmanaged)[|sources| + 1..]);
    AssembleTable(sources, dest, rows, working, unmanaged);
  }

  /** The header, label rows and unmanaged rows form the table, whichever inner loop produced the label rows. */
  lemma AssembleTable(sources: map<string, Cfg.Source>, dest: Kubeconfig.Document,
                      rows: seq<Row>, working: map<string, Kubeconfig.Context>, unmanaged: seq<Row>)
    requires LabelLoop(rows, working, sources.Keys, sources, dest)
    requires UnmanagedLoop(unmanaged, working.Keys, dest)
    ensures TableOf([Header] + rows + unmanaged, sources, dest)
  {
    LabelSectionOf(rows, working, sources, dest);
    UnmanagedSectionOf(unmanaged, rows, working, dest);
    DistinctAcross(rows, unmanaged, dest);
    TableSlices(rows, unmanaged);
  }

  /**
   * listCtx without the printing: the header, the label rows, then the
   * unmanaged rows (cmd/list.go lines 54-103).
   */
  method ListTable(sources: map<string, Cfg.Source>, dest: Kubeconfig.Document) returns (r: Result<seq<Row>, ListError>)
    ensures r.Failure? ==>
      r.error.context in dest.contexts && dest.contexts[r.error.context].cluster !in dest.clusters
    ensures Kubeconfig.ClustersResolve(dest) ==> r.Success?
    ensures r.Success? ==> TableOf(r.value, sources, dest)
    ensures r.Success? ==> NoMissedContexts(r.value[1..|sources| + 1], r.value[|sources| + 1..])
  {
    var labelled := LabelRows(sources, dest);
    if labelled.Failure? {
      return Failure(labelled.error);
    }
    var (rows, working) := labelled.value;
    var unmanaged := UnmanagedRows(working, dest);
    if unmanaged.Failure? {
      return Failure(unmanaged.error);
    }
    Assemble(sources, dest, rows, working, unmanaged.value);
    return Success([Header] + rows + unmanaged.value);
  }

  // ----- The label loop and the table as written -----

  /** The label loop of lines 73-95 with the inner loop as written (LabelTurnAsWritten). */
  method LabelRowsAsWritten(sources: map<string, Cfg.Source>, dest: Kubeconfig.Document)
    returns (r: Result<(seq<Row>, map<string, Kubeconfig.Context>), ListError>)
    ensures r.Failure? ==>
      r.error.context in dest.contexts && dest.contexts[r.error.context].cluster !in dest.clusters
    ensures Kubeconfig.ClustersResolve(dest) ==> r.Success?
    ensures r.Success? ==> LabelLoop(r.value.0, r.value.1, sources.Keys, sources, dest)
  {
    var rows: seq<Row> := [];
    var working := dest.contexts;
    var pending := sources.Keys;
    ghost var done: set<string> := {};
    assert Remains(working, dest.contexts, Claimed(rows));

    while pending != {}
      invariant pending !! done && pending + done == sources.Keys
      invariant LabelLoop(rows, working, done, sources, dest)
      decreases pending
    {
      var labelName :| labelName in pending;
      var turn := LabelTurnAsWritten(labelName, sources[labelName], working, dest);
      if turn.Failure? {
        return Failure(turn.error);
      }
      var (row, remaining) := turn.value;
      if row.kubernetesContext != "" {
        ClaimsLabelSuffix(row.kubernetesContext, labelName);
      }
      LabelStep(rows, working, done, sources, dest, labelName, row);
      MoveOne(pending, done, sources.Keys, labelName);
      rows, working := rows + [row], remaining;
      pending := pending - {labelName};
      done := done + {labelName};
    }
    assert done == sources.Keys;
    return Success((rows, working));
  }

  /** listCtx as written: the same table shape, without the no-missed-context property. */
  method ListTableAsWritten(sources: map<string, Cfg.Source>, dest: Kubeconfig.Document) returns (r: Result<seq<Row>, ListError>)
    ensures r.Failure? ==>
      r.error.context in dest.contexts && dest.contexts[r.error.context].cluster !in dest.clusters
    ensures Kubeconfig.ClustersResolve(dest) ==> r.Success?
    ensures r.Success? ==> TableOf(r.value, sources, dest)
  {
    var labelled := LabelRowsAsWritten(sources, dest);
    if labelled.Failure? {
      return Failure(labelled.error);
    }
    var (rows, working) := labelled.value;
    var unmanaged := UnmanagedRows(working, dest);
    if unmanaged.Failure? {
      return Failure(unmanaged.error);
    }
    AssembleTable(sources, dest, rows, working, unmanaged.value);
    return Success([Header] + rows + unmanaged.value);
  }
}
