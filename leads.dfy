/**
  The lead kanban board of src/pages/Leads.tsx: five named columns of leads,
  drag-and-drop within or between columns (remove at the source index, then
  insert at the destination index), adding and deleting a lead, the
  per-column value total and the column colours.
 */
module Leads {
  import opened Common
  import Text
  import Lists

  datatype Lead = Lead(id: string, content: string, value: real, contact: string)

  type Columns = map<string, seq<Lead>>

  /** The board's columns, in display order. */
  const ColumnNames: seq<string> := ["New", "Contacted", "Qualified", "Proposal", "Closed"]

  /** `initialColumns`. */
  function InitialColumns(): (c: Columns)
    ensures c.Keys == set n | n in ColumnNames
    ensures |c["New"]| == 2 && c["Closed"] == []
  {
    map[
      "New" := [
        Lead("1", "Lead #101 - Tech Startup", 15000.0, "john@techstartup.com"),
        Lead("2", "Lead #102 - E-commerce Store", 8500.0, "sarah@ecommerce.com")],
      "Contacted" := [Lead("3", "Lead #103 - Marketing Agency", 12000.0, "mike@agency.com")],
      "Qualified" := [Lead("4", "Lead #104 - SaaS Company", 25000.0, "lisa@saas.com")],
      "Proposal" := [Lead("5", "Lead #105 - Consulting Firm", 18000.0, "david@consulting.com")],
      "Closed" := []]
  }

  /** `getTotalValue` for one column: Σ lead.value. */
  function ColumnValue(leads: seq<Lead>): real {
    if leads == [] then 0.0 else leads[0].value + ColumnValue(leads[1..])
  }

  lemma {:induction false} ColumnValueAppend(a: seq<Lead>, b: seq<Lead>)
    ensures ColumnValue(a + b) == ColumnValue(a) + ColumnValue(b)
  {
    if a == [] {
      assert a + b == b;
    } else {
      assert (a + b)[1..] == a[1..] + b;
      ColumnValueAppend(a[1..], b);
    }
  }

  /** The column value depends only on the multiset of leads, so it is the
      same for any reordering. */
  lemma {:induction false} ColumnValuePermutation(a: seq<Lead>, b: seq<Lead>)
    requires multiset(a) == multiset(b)
    ensures ColumnValue(a) == ColumnValue(b)
    decreases |a|
  {
    if a != [] {
      var x := a[0];
      assert x in multiset(b);
      var k :| 0 <= k < |b| && b[k] == x;
      assert b == b[..k] + [x] + b[k + 1..];
      ColumnValueAppend(b[..k] + [x], b[k + 1..]);
      ColumnValueAppend(b[..k], [x]);
      ColumnValueAppend(b[..k], b[k + 1..]);
      assert a == [x] + a[1..];
      assert multiset(a[1..]) == multiset(a) - multiset{x};
      assert multiset(b[..k] + b[k + 1..]) == multiset(b) - multiset{x} by {
        assert multiset(b) == multiset(b[..k]) + multiset{x} + multiset(b[k + 1..]);
      }
      ColumnValuePermutation(a[1..], b[..k] + b[k + 1..]);
    } else {
      assert b == [];
    }
  }

  /** `column.splice(index, 1)` for an index in range: the removed lead and
      the rest. */
  function RemoveAt(leads: seq<Lead>, index: nat): (r: (Lead, seq<Lead>))
    requires index < |leads|
    ensures r.0 == leads[index] && |r.1| == |leads| - 1
    ensures r.1 == leads[..index] + leads[index + 1..]
    ensures multiset(leads) == multiset(r.1) + multiset{r.0}
  {
    assert leads == leads[..index] + [leads[index]] + leads[index + 1..];
    (leads[index], leads[..index] + leads[index + 1..])
  }

  /** `column.splice(index, 0, lead)`: an index past the end appends. */
  function InsertAt(leads: seq<Lead>, index: nat, lead: Lead): (r: seq<Lead>)
    ensures |r| == |leads| + 1
    ensures index <= |leads| ==> r[index] == lead
    ensures index > |leads| ==> r[|leads|] == lead
    ensures multiset(r) == multiset(leads) + multiset{lead}
  {
    var at := if index <= |leads| then index else |leads|;
    assert leads == leads[..at] + leads[at..];
    leads[..at] + [lead] + leads[at..]
  }

  /** Σ ColumnValue over the named columns. */
  function BoardValue(cols: Columns, names: seq<string>): real
    requires forall n :: n in names ==> n in cols
  {
    if names == [] then 0.0 else ColumnValue(cols[names[0]]) + BoardValue(cols, names[1..])
  }

  /** Number of leads in the named columns. */
  function BoardCount(cols: Columns, names: seq<string>): nat
    requires forall n :: n in names ==> n in cols
  {
    if names == [] then 0 else |cols[names[0]]| + BoardCount(cols, names[1..])
  }

  /** Replacing one column changes the board sums by the change in that
      column, provided the names are distinct. */
  lemma {:induction false} BoardSumsReplace(cols: Columns, names: seq<string>, key: string, leads: seq<Lead>)
    requires forall n :: n in names ==> n in cols
    requires key in cols
    requires forall i, j :: 0 <= i < j < |names| ==> names[i] != names[j]
    ensures key in names ==>
      && BoardValue(cols[key := leads], names) == BoardValue(cols, names) - ColumnValue(cols[key]) + ColumnValue(leads)
      && BoardCount(cols[key := leads], names) == BoardCount(cols, names) - |cols[key]| + |leads|
    ensures key !in names ==>
      BoardValue(cols[key := leads], names) == BoardValue(cols, names) && BoardCount(cols[key := leads], names) == BoardCount(cols, names)
  {
    if names != [] {
      BoardSumsReplace(cols, names[1..], key, leads);
      if names[0] == key {
        assert key !in names[1..] by {
          forall j | 0 <= j < |names[1..]| ensures names[1..][j] != key {
            assert names[j + 1] != names[0];
          }
        }
      }
    }
  }

  /** The board state: its columns, and the add-lead form. */
  class Board {
    var columns: Columns
    var showAddForm: bool
    var newContent: string
    var newValue: real
    var newContact: string

    /** The five columns exist and no other. */
    ghost predicate Valid()
      reads this
    {
      columns.Keys == set n | n in ColumnNames
    }

    constructor ()
      ensures Valid() && columns == InitialColumns()
      ensures !showAddForm && newContent == "" && newValue == 0.0 && newContact == ""
    {
      columns := InitialColumns();
      showAddForm := false;
      newContent, newValue, newContact := "", 0.0, "";
    }

    /** The header button: show or hide the add-lead form. */
    method ToggleAddForm()
      modifies this`showAddForm
      ensures showAddForm == !old(showAddForm)
    {
      showAddForm := !showAddForm;
    }

    /** The form's inputs. The value field holds `parseInt(text) || 0`:
        `parsed` is None when the text does not start with an integer. */
    method SetNewLead(content: string, parsed: Option<int>, contact: string)
      modifies this`newContent, this`newValue, this`newContact
      ensures newContent == content && newContact == contact
      ensures newValue == (if parsed.Some? then parsed.value as real else 0.0)
    {
      newContent := content;
      newValue := if parsed.Some? then parsed.value as real else 0.0;
      newContact := contact;
    }

    /** `onDragEnd`. A drop outside every column changes nothing; otherwise
        the lead at the source index is spliced out and spliced in at the
        destination index. */
    method OnDragEnd(sourceId: string, sourceIndex: nat, destination: Option<(string, nat)>)
      requires Valid() && sourceId in columns && sourceIndex < |columns[sourceId]|
      requires destination.Some? ==> destination.value.0 in columns
      modifies this`columns
      ensures Valid()
      ensures destination.None? ==> columns == old(columns)
      ensures destination.Some? ==> var (destId, destIndex) := destination.value;
        var moved := old(columns)[sourceId][sourceIndex];
        var rest := old(columns)[sourceId][..sourceIndex] + old(columns)[sourceId][sourceIndex + 1..];
        && (destId == sourceId ==> columns == old(columns)[sourceId := InsertAt(rest, destIndex, moved)])
        && (destId != sourceId ==> columns == old(columns)[sourceId := rest][destId := InsertAt(old(columns)[destId], destIndex, moved)])
    {
      if destination.None? {
        return;
      }
      var (destId, destIndex) := destination.value;
      if sourceId == destId {
        var column := columns[sourceId];
        var (moved, rest) := RemoveAt(column, sourceIndex);
        column := InsertAt(rest, destIndex, moved);
        columns := columns[sourceId := column];
      } else {
        var sourceColumn := columns[sourceId];
        var destColumn := columns[destId];
        var (moved, rest) := RemoveAt(sourceColumn, sourceIndex);
        sourceColumn := rest;
        destColumn := InsertAt(destColumn, destIndex, moved);
        columns := columns[sourceId := sourceColumn][destId := destColumn];
      }
    }

    /** `addLead`: with content and contact filled in, the new lead (its id the
        clock `now` in decimal) goes to the top of "New" and the form is
        cleared; otherwise nothing happens. */
    method AddLead(now: nat)
      requires Valid()
      modifies this
      ensures Valid()
      ensures old(newContent) == "" || old(newContact) == "" ==>
        columns == old(columns) && showAddForm == old(showAddForm) && newContent == old(newContent)
        && newValue == old(newValue) && newContact == old(newContact)
      ensures old(newContent) != "" && old(newContact) != "" ==>
        && columns == old(columns)["New" := [Lead(Text.NatToString(now), old(newContent), old(newValue), old(newContact))] + old(columns)["New"]]
        && !showAddForm && newContent == "" && newValue == 0.0 && newContact == ""
    {
      if newContent != "" && newContact != "" {
        var lead := Lead(Text.NatToString(now), newContent, newValue, newContact);
        columns := columns["New" := [lead] + columns["New"]];
        newContent, newValue, newContact := "", 0.0, "";
        showAddForm := false;
      }
    }

    /** `deleteLead(leadId, columnId)` once the user has answered `confirm`. */
    method DeleteLead(leadId: string, columnId: string, confirmed: bool)
      requires Valid() && columnId in columns
      modifies this`columns
      ensures Valid()
      ensures !confirmed ==> columns == old(columns)
      ensures confirmed ==> columns == old(columns)[columnId := WithoutLead(old(columns)[columnId], leadId)]
    {
      if confirmed {
        columns := columns[columnId := WithoutLead(columns[columnId], leadId)];
      }
    }
  }

  /** `leads.filter(lead => lead.id !== leadId)`: every lead with another id
      stays, in order, and none with that id. */
  function WithoutLead(leads: seq<Lead>, leadId: string): (r: seq<Lead>)
    ensures Lists.IsSubsequence(r, leads)
    ensures forall i :: 0 <= i < |r| ==> r[i].id != leadId
    ensures forall i :: 0 <= i < |leads| && leads[i].id != leadId ==> leads[i] in r
    ensures |r| == Lists.Count(leads, (l: Lead) => l.id != leadId)
  {
    Lists.FilterLength(leads, (l: Lead) => l.id != leadId);
    Lists.Filter(leads, (l: Lead) => l.id != leadId)
  }

  /** Deleting a lead id that is not in the column leaves it as it was. */
  lemma WithoutAbsentLead(leads: seq<Lead>, leadId: string)
    requires forall i :: 0 <= i < |leads| ==> leads[i].id != leadId
    ensures WithoutLead(leads, leadId) == leads
  {
    Lists.FilterKeepsAll(leads, (l: Lead) => l.id != leadId);
  }

  /** A drag between two columns keeps every lead: the two columns' leads
      together are the same multiset, the source loses one and the target
      gains one. */
  lemma CrossColumnMoveConserves(src: seq<Lead>, dst: seq<Lead>, sourceIndex: nat, destIndex: nat)
    requires sourceIndex < |src|
    ensures var (moved, rest) := RemoveAt(src, sourceIndex);
      var dst' := InsertAt(dst, destIndex, moved);
      && |rest| == |src| - 1 && |dst'| == |dst| + 1
      && (destIndex <= |dst| ==> dst'[destIndex] == src[sourceIndex])
      && multiset(rest) + multiset(dst') == multiset(src) + multiset(dst)
      && ColumnValue(rest) + ColumnValue(dst') == ColumnValue(src) + ColumnValue(dst)
  {
    RemoveAtValue(src, sourceIndex);
    InsertAtValue(dst, destIndex, src[sourceIndex]);
  }

  lemma RemoveAtValue(src: seq<Lead>, sourceIndex: nat)
    requires sourceIndex < |src|
    ensures ColumnValue(src[..sourceIndex] + src[sourceIndex + 1..]) == ColumnValue(src) - src[sourceIndex].value
  {
    var pre, moved, post := src[..sourceIndex], src[sourceIndex], src[sourceIndex + 1..];
    SplitAt(src, sourceIndex);
    SpliceValue(pre, moved, post);
    ColumnValueAppend(pre, post);
  }

  lemma SplitAt(s: seq<Lead>, i: nat)
    requires i < |s|
    ensures s == s[..i] + [s[i]] + s[i + 1..]
  {
  }

  lemma InsertAtValue(dst: seq<Lead>, destIndex: nat, moved: Lead)
    ensures ColumnValue(InsertAt(dst, destIndex, moved)) == ColumnValue(dst) + moved.value
  {
    var at := if destIndex <= |dst| then destIndex else |dst|;
    assert dst == dst[..at] + dst[at..];
    SpliceValue(dst[..at], moved, dst[at..]);
    ColumnValueAppend(dst[..at], dst[at..]);
  }

  /** The value of a column with one lead spliced in. */
  lemma SpliceValue(pre: seq<Lead>, moved: Lead, post: seq<Lead>)
    ensures ColumnValue(pre + [moved] + post) == ColumnValue(pre) + moved.value + ColumnValue(post)
  {
    ColumnValueAppend(pre + [moved], post);
    ColumnValueAppend(pre, [moved]);
    assert [moved][1..] == [];
  }

  /** A drag within one column yields a permutation of it with the moved lead
      at the destination index. */
  lemma SameColumnMoveIsPermutation(col: seq<Lead>, sourceIndex: nat, destIndex: nat)
    requires sourceIndex < |col|
    ensures var (moved, rest) := RemoveAt(col, sourceIndex);
      var col' := InsertAt(rest, destIndex, moved);
      && |col'| == |col|
      && multiset(col') == multiset(col)
      && (destIndex < |col| ==> col'[destIndex] == col[sourceIndex])
      && ColumnValue(col') == ColumnValue(col)
  {
    var (moved, rest) := RemoveAt(col, sourceIndex);
    var col' := InsertAt(rest, destIndex, moved);
    ColumnValuePermutation(col', col);
  }

  /** Any drop keeps the number of leads and the total value of the board. */
  lemma DragConservesBoard(cols: Columns, sourceId: string, sourceIndex: nat, destId: string, destIndex: nat)
    requires cols.Keys == set n | n in ColumnNames
    requires sourceId in cols && destId in cols && sourceIndex < |cols[sourceId]|
    ensures var src := cols[sourceId];
      var (moved, rest) := RemoveAt(src, sourceIndex);
      var after := if sourceId == destId then cols[sourceId := InsertAt(rest, destIndex, moved)]
                   else cols[sourceId := rest][destId := InsertAt(cols[destId], destIndex, moved)];
      && after.Keys == cols.Keys
      && BoardCount(after, ColumnNames) == BoardCount(cols, ColumnNames)
      && BoardValue(after, ColumnNames) == BoardValue(cols, ColumnNames)
      && forall n :: n in cols && n != sourceId && n != destId ==> after[n] == cols[n]
  {
    assert sourceId in ColumnNames && destId in ColumnNames;
    ColumnNamesDistinct();
    if sourceId == destId {
      SameColumnDrop(cols, sourceId, sourceIndex, destIndex);
    } else {
      CrossColumnDrop(cols, sourceId, sourceIndex, destId, destIndex);
    }
  }

  lemma ColumnNamesDistinct()
    ensures forall i, j :: 0 <= i < j < |ColumnNames| ==> ColumnNames[i] != ColumnNames[j]
  {
  }

  lemma SameColumnDrop(cols: Columns, id: string, sourceIndex: nat, destIndex: nat)
    requires forall n :: n in ColumnNames ==> n in cols
    requires forall i, j :: 0 <= i < j < |ColumnNames| ==> ColumnNames[i] != ColumnNames[j]
    requires id in ColumnNames && id in cols && sourceIndex < |cols[id]|
    ensures var col' := InsertAt(cols[id][..sourceIndex] + cols[id][sourceIndex + 1..], destIndex, cols[id][sourceIndex]);
      && BoardCount(cols[id := col'], ColumnNames) == BoardCount(cols, ColumnNames)
      && BoardValue(cols[id := col'], ColumnNames) == BoardValue(cols, ColumnNames)
  {
    SameColumnMoveIsPermutation(cols[id], sourceIndex, destIndex);
    var col' := InsertAt(cols[id][..sourceIndex] + cols[id][sourceIndex + 1..], destIndex, cols[id][sourceIndex]);
    BoardSumsReplace(cols, ColumnNames, id, col');
  }

  lemma CrossColumnDrop(cols: Columns, sourceId: string, sourceIndex: nat, destId: string, destIndex: nat)
    requires forall n :: n in ColumnNames ==> n in cols
    requires forall i, j :: 0 <= i < j < |ColumnNames| ==> ColumnNames[i] != ColumnNames[j]
    requires sourceId in ColumnNames && destId in ColumnNames && sourceId != destId
    requires sourceId in cols && destId in cols && sourceIndex < |cols[sourceId]|
    ensures var src := cols[sourceId];
      var rest := src[..sourceIndex] + src[sourceIndex + 1..];
      var after := cols[sourceId := rest][destId := InsertAt(cols[destId], destIndex, src[sourceIndex])];
      && BoardCount(after, ColumnNames) == BoardCount(cols, ColumnNames)
      && BoardValue(after, ColumnNames) == BoardValue(cols, ColumnNames)
  {
    var src := cols[sourceId];
    var rest := src[..sourceIndex] + src[sourceIndex + 1..];
    var dst' := InsertAt(cols[destId], destIndex, src[sourceIndex]);
    CrossColumnMoveConserves(src, cols[destId], sourceIndex, destIndex);
    BoardSumsReplace(cols, ColumnNames, sourceId, rest);
    BoardSumsReplace(cols[sourceId := rest], ColumnNames, destId, dst');
  }

  /** `getColumnColor`: the five columns' colours, grey for any other name. */
  function ColumnColor(name: string): (color: string)
    ensures name !in ColumnNames ==> color == "#6b7280"
    ensures name in ColumnNames ==> color != "#6b7280"
    ensures name == "New" <==> color == "#3b82f6"
    ensures name == "Contacted" <==> color == "#f59e0b"
    ensures name == "Qualified" <==> color == "#8b5cf6"
    ensures name == "Proposal" <==> color == "#06b6d4"
    ensures name == "Closed" <==> color == "#10b981"
  {
    if name == "New" then "#3b82f6"
    else if name == "Contacted" then "#f59e0b"
    else if name == "Qualified" then "#8b5cf6"
    else if name == "Proposal" then "#06b6d4"
    else if name == "Closed" then "#10b981"
    else "#6b7280"
  }
}
