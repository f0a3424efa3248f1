/** The domains table of the company tab (`_domains_table`): one row per
    domain record of the company, with its id and name, the selected
    company, and the first and last dates found among its findings. */
module CompanyTab {
  import opened Text
  import opened JsonValue
  import opened Helpers

  /** The keys a domain record's name is read from, in `or` order. */
  const DomainNameKeys: seq<string> := ["domain_name", "domain", "name"]

  /** The keys a finding's date is read from, in `or` order. */
  const DateKeys: seq<string> := ["found_date", "date", "scan_date"]

  /** The one source every row names. */
  const Synthetic: string := "synthetic"

  // ---------------------------------------------------------------- dates

  /** The values of `xs` under `f`, concatenated, or `None` as soon as one
      of them is `None` (the loop raises). */
  function ConcatOrRaise<A>(xs: seq<A>, f: A -> Option<seq<string>>): Option<seq<string>>
  {
    if xs == [] then Some([])
    else
      var n := |xs| - 1;
      match ConcatOrRaise(xs[..n], f)
      case None => None
      case Some(ds) =>
        match f(xs[n])
        case None => None
        case Some(more) => Some(ds + more)
  }

  /** The concatenation raises exactly when one of its parts does. */
  lemma {:induction false} ConcatOrRaiseNone<A>(xs: seq<A>, f: A -> Option<seq<string>>)
    ensures ConcatOrRaise(xs, f).None? <==> exists i :: 0 <= i < |xs| && f(xs[i]).None?
  {
    if xs != [] {
      var n := |xs| - 1;
      assert forall i :: 0 <= i < n ==> xs[..n][i] == xs[i];
      ConcatOrRaiseNone(xs[..n], f);
    }
  }

  /** Extending the run by one element that does not raise appends its
      values. */
  lemma ConcatOrRaiseSnoc<A>(xs: seq<A>, x: A, f: A -> Option<seq<string>>)
    requires ConcatOrRaise(xs, f).Some? && f(x).Some?
    ensures ConcatOrRaise(xs + [x], f) == Some(ConcatOrRaise(xs, f).value + f(x).value)
  {
    assert (xs + [x])[..|xs|] == xs;
  }

  /** The date of one finding, as text, when its first truthy date key has
      one; `None` when the finding is not a dict, so that `r.get` raises. */
  function ItemDates(item: Json): (r: Option<seq<string>>)
    ensures r.None? <==> !item.JObj?
    ensures r.Some? ==> |r.value| <= 1
  {
    if !item.JObj? then None
    else
      var dt := OrKeys(item, DateKeys);
      Some(if Truthy(dt) then [Str(dt)] else [])
  }

  /** The dates of one category's findings. */
  function ListDates(items: seq<Json>): Option<seq<string>>
  {
    ConcatOrRaise(items, ItemDates)
  }

  /** A category list raises exactly when one of its findings is not a dict. */
  lemma ListDatesNone(items: seq<Json>)
    ensures ListDates(items).None? <==> exists i :: 0 <= i < |items| && !items[i].JObj?
  {
    ConcatOrRaiseNone(items, ItemDates);
  }

  /** The dates of one entry of `findings_by_category`; `None` when its list
      cannot be iterated or holds a non-dict. */
  function EntryDates(entry: (string, Json)): Option<seq<string>>
  {
    match Iterate(entry.1)
    case None => None
    case Some(items) => ListDates(items)
  }

  /** The dates over every category list of `findings_by_category`. */
  function FbcDates(lists: seq<(string, Json)>): Option<seq<string>>
  {
    ConcatOrRaise(lists, EntryDates)
  }

  /** One entry of `findings_by_category` raises exactly when its value
      cannot be iterated or one of its findings is not a dict. */
  lemma EntryDatesNone(entry: (string, Json))
    ensures EntryDates(entry).None? <==>
      Iterate(entry.1).None? || exists i :: 0 <= i < |Iterate(entry.1).value| && !Iterate(entry.1).value[i].JObj?
  {
    if Iterate(entry.1).Some? {
      ListDatesNone(Iterate(entry.1).value);
    }
  }

  /** The dates of a domain record: `d.get("findings_by_category") or {}`
      must be a dict to have `.values()`. */
  function DomainDates(d: Json): Option<seq<string>>
    requires d.JObj?
  {
    var fbc := At(d, "findings_by_category");
    if !Truthy(fbc) then Some([])
    else if fbc.JObj? then FbcDates(fbc.fields)
    else None
  }

  /** A domain record raises exactly when its truthy `findings_by_category`
      is not a dict or one of its entries raises. */
  lemma DomainDatesNone(d: Json)
    requires d.JObj?
    ensures var fbc := At(d, "findings_by_category");
      DomainDates(d).None? <==>
        Truthy(fbc) && (!fbc.JObj? || exists i :: 0 <= i < |fbc.fields| && EntryDates(fbc.fields[i]).None?)
  {
    var fbc := At(d, "findings_by_category");
    if Truthy(fbc) && fbc.JObj? {
      ConcatOrRaiseNone(fbc.fields, EntryDates);
    }
  }

  /** `min(dates)`: the text every date is at least. */
  function MinText(dates: seq<string>): (r: string)
    requires dates != []
    ensures r in dates
    ensures forall x :: x in dates ==> StrLe(r, x)
  {
    var n := |dates| - 1;
    StrLeRefl(dates[n]);
    if n == 0 then
      assert forall x :: x in dates ==> x == dates[0];
      dates[0]
    else
      var m := MinText(dates[..n]);
      assert forall x :: x in dates ==> x in dates[..n] || x == dates[n];
      StrLeTotal(m, dates[n]);
      if StrLe(dates[n], m) then
        assert forall x :: x in dates[..n] ==> StrLe(dates[n], x) by {
          forall x | x in dates[..n] ensures StrLe(dates[n], x) {
            StrLeTrans(dates[n], m, x);
          }
        }
        dates[n]
      else m
  }

  /** `max(dates)`: the text every date is at most. */
  function MaxText(dates: seq<string>): (r: string)
    requires dates != []
    ensures r in dates
    ensures forall x :: x in dates ==> StrLe(x, r)
  {
    var n := |dates| - 1;
    StrLeRefl(dates[n]);
    if n == 0 then
      assert forall x :: x in dates ==> x == dates[0];
      dates[0]
    else
      var m := MaxText(dates[..n]);
      assert forall x :: x in dates ==> x in dates[..n] || x == dates[n];
      StrLeTotal(m, dates[n]);
      if StrLe(m, dates[n]) && m != dates[n] then
        assert forall x :: x in dates[..n] ==> StrLe(x, dates[n]) by {
          forall x | x in dates[..n] ensures StrLe(x, dates[n]) {
            StrLeTrans(x, m, dates[n]);
          }
        }
        dates[n]
      else
        assert StrLe(dates[n], m) by {
          if m == dates[n] { StrLeRefl(m); }
        }
        m
  }

  // ----------------------------------------------------------------- rows

  /** A row of the table. */
  datatype DomainsRow = DomainsRow(domainId: Json, companyId: Option<int>, domainName: Json, source: string,
                                   firstSeen: Option<string>, lastSeen: Option<string>)

  /** `int(selected_company_id) if selected_company_id else None`. */
  function CompanyIdCell(selected: Option<int>): (r: Option<int>)
    ensures r.Some? <==> selected.Some? && selected.value != 0
    ensures r.Some? ==> r == selected
  {
    if selected.Some? && selected.value != 0 then selected else None
  }

  /** A domain record's row; `None` when the record or its findings make the
      loop raise. */
  function RowOf(selected: Option<int>, d: Json): (r: Option<DomainsRow>)
    ensures r.Some? <==> d.JObj? && DomainDates(d).Some?
  {
    if !d.JObj? then None
    else match DomainDates(d)
      case None => None
      case Some(dates) => Some(RowFrom(selected, d, dates))
  }

  /** The row of a domain record whose findings carry `dates`. */
  function RowFrom(selected: Option<int>, d: Json, dates: seq<string>): DomainsRow
  {
    DomainsRow(OrKeys(d, DomainIdKeys), CompanyIdCell(selected), OrKeys(d, DomainNameKeys), Synthetic,
               if dates == [] then None else Some(MinText(dates)),
               if dates == [] then None else Some(MaxText(dates)))
  }

  /** The values of `xs` under `f`, or `None` as soon as one of them is
      `None` (the loop raises). */
  function MapOrRaise<A, B>(xs: seq<A>, f: A -> Option<B>): (r: Option<seq<B>>)
    ensures r.Some? ==> |r.value| == |xs|
  {
    if xs == [] then Some([])
    else
      var n := |xs| - 1;
      match MapOrRaise(xs[..n], f)
      case None => None
      case Some(ys) =>
        match f(xs[n])
        case None => None
        case Some(y) => Some(ys + [y])
  }

  /** The map raises exactly when one element does, and otherwise holds each
      element's value, in order. */
  lemma {:induction false} MapOrRaiseMeaning<A, B>(xs: seq<A>, f: A -> Option<B>)
    ensures MapOrRaise(xs, f).Some? <==> forall i :: 0 <= i < |xs| ==> f(xs[i]).Some?
    ensures MapOrRaise(xs, f).Some? ==> forall i :: 0 <= i < |xs| ==> MapOrRaise(xs, f).value[i] == f(xs[i]).value
  {
    if xs != [] {
      var n := |xs| - 1;
      assert forall i :: 0 <= i < n ==> xs[..n][i] == xs[i];
      MapOrRaiseMeaning(xs[..n], f);
    }
  }

  /** Extending the run by one element that does not raise appends its
      value. */
  lemma MapOrRaiseSnoc<A, B>(xs: seq<A>, i: nat, f: A -> Option<B>, ys: seq<B>)
    requires i < |xs| && MapOrRaise(xs[..i], f) == Some(ys) && f(xs[i]).Some?
    ensures MapOrRaise(xs[..i + 1], f) == Some(ys + [f(xs[i]).value])
  {
    assert xs[..i + 1][..i] == xs[..i];
  }

  /** `RowOf` for the selected company, as a function of the record. */
  function RowFn(selected: Option<int>): Json -> Option<DomainsRow>
  {
    d => RowOf(selected, d)
  }

  /** The rows for a run of domain records. */
  function RowsOf(selected: Option<int>, ds: seq<Json>): Option<seq<DomainsRow>>
  {
    MapOrRaise(ds, RowFn(selected))
  }

  /** The table raises exactly when some domain record does, and otherwise
      holds one row per record, in order, each the record's own row. */
  lemma RowsOfMeaning(selected: Option<int>, ds: seq<Json>)
    ensures RowsOf(selected, ds).Some? <==> forall i :: 0 <= i < |ds| ==> RowOf(selected, ds[i]).Some?
    ensures RowsOf(selected, ds).Some? ==> |RowsOf(selected, ds).value| == |ds|
    ensures RowsOf(selected, ds).Some? ==>
      forall i :: 0 <= i < |ds| ==> RowsOf(selected, ds).value[i] == RowOf(selected, ds[i]).value
  {
    MapOrRaiseMeaning(ds, RowFn(selected));
  }

  /** `_domains_table(selected_company_id, company_domains)`: `None` when it
      raises. */
  function DomainsTable(selected: Option<int>, companyDomains: Json): Option<seq<DomainsRow>>
  {
    match Iterate(companyDomains)
    case None => None
    case Some(ds) => RowsOf(selected, ds)
  }

  /** The table raises when the domains cannot be iterated or a domain
      record raises; otherwise it has one row per record, in order. */
  lemma DomainsTableMeaning(selected: Option<int>, companyDomains: Json)
    ensures Iterate(companyDomains).None? ==> DomainsTable(selected, companyDomains).None?
    ensures Iterate(companyDomains).Some? ==>
      var ds := Iterate(companyDomains).value;
      (DomainsTable(selected, companyDomains).Some? <==> forall i :: 0 <= i < |ds| ==> RowOf(selected, ds[i]).Some?)
      && (DomainsTable(selected, companyDomains).Some? ==>
            |DomainsTable(selected, companyDomains).value| == |ds|
            && forall i :: 0 <= i < |ds| ==> DomainsTable(selected, companyDomains).value[i] == RowOf(selected, ds[i]).value)
  {
    if Iterate(companyDomains).Some? {
      RowsOfMeaning(selected, Iterate(companyDomains).value);
    }
  }

  /** Each row carries its domain's first truthy id and name keys, the
      selected company, the one source, and first and last seen dates that
      are the least and greatest of the domain's dates, both absent exactly
      when there are none. */
  lemma RowMeaning(selected: Option<int>, d: Json)
    requires RowOf(selected, d).Some?
    ensures var row := RowOf(selected, d).value;
      var dates := DomainDates(d).value;
      row.domainId == OrKeys(d, DomainIdKeys) && row.domainName == OrKeys(d, DomainNameKeys)
      && row.companyId == CompanyIdCell(selected) && row.source == Synthetic
      && (row.firstSeen.None? <==> dates == []) && (row.lastSeen.None? <==> dates == [])
      && (row.firstSeen.Some? ==> row.firstSeen.value in dates && forall x :: x in dates ==> StrLe(row.firstSeen.value, x))
      && (row.lastSeen.Some? ==> row.lastSeen.value in dates && forall x :: x in dates ==> StrLe(x, row.lastSeen.value))
  {
  }

  /** The first date seen is never after the last. */
  lemma FirstNotAfterLast(selected: Option<int>, d: Json)
    requires RowOf(selected, d).Some?
    ensures var row := RowOf(selected, d).value;
      row.firstSeen.Some? <==> row.lastSeen.Some?
    ensures var row := RowOf(selected, d).value;
      row.firstSeen.Some? ==> StrLe(row.firstSeen.value, row.lastSeen.value)
  {
    var dates := DomainDates(d).value;
    if dates != [] {
      assert MaxText(dates) in dates;
    }
  }

  // ---------------------------------------------------------------- loops

  /** One more finding that is a dict appends its date, if any. */
  lemma ListDatesSnoc(items: seq<Json>, i: nat, dates: seq<string>)
    requires i < |items| && ListDates(items[..i]) == Some(dates) && items[i].JObj?
    ensures var dt := OrKeys(items[i], DateKeys);
      ListDates(items[..i + 1]) == Some(if Truthy(dt) then dates + [Str(dt)] else dates)
  {
    assert items[..i + 1] == items[..i] + [items[i]];
    ConcatOrRaiseSnoc(items[..i], items[i], ItemDates);
    assert dates + [] == dates;
  }

  /** A finding that is not a dict makes the category list raise. */
  lemma ListDatesStops(items: seq<Json>, i: nat)
    requires i < |items| && !items[i].JObj?
    ensures ListDates(items).None?
  {
    ListDatesNone(items);
  }

  /** One more category that does not raise appends its dates. */
  lemma FbcDatesSnoc(lists: seq<(string, Json)>, i: nat, dates: seq<string>, more: seq<string>)
    requires i < |lists| && FbcDates(lists[..i]) == Some(dates) && EntryDates(lists[i]) == Some(more)
    ensures FbcDates(lists[..i + 1]) == Some(dates + more)
  {
    assert lists[..i + 1] == lists[..i] + [lists[i]];
    ConcatOrRaiseSnoc(lists[..i], lists[i], EntryDates);
  }

  /** A category that raises makes the domain record raise. */
  lemma FbcDatesStops(lists: seq<(string, Json)>, i: nat)
    requires i < |lists| && EntryDates(lists[i]).None?
    ensures FbcDates(lists).None?
  {
    ConcatOrRaiseNone(lists, EntryDates);
  }

  /** The inner loop over one category's findings. */
  method CollectListDates(items: seq<Json>) returns (r: Option<seq<string>>)
    ensures r == ListDates(items)
  {
    var dates: seq<string> := [];
    var i := 0;
    while i < |items|
      invariant 0 <= i <= |items|
      invariant ListDates(items[..i]) == Some(dates)
    {
      if !items[i].JObj? {
        ListDatesStops(items, i);
        return None;
      }
      ListDatesSnoc(items, i, dates);
      var dt := OrKeys(items[i], DateKeys);
      if Truthy(dt) {
        dates := dates + [Str(dt)];
      }
      i := i + 1;
    }
    assert items[..i] == items;
    r := Some(dates);
  }

  /** The loops over the category lists of a domain record. */
  method CollectDomainDates(d: Json) returns (r: Option<seq<string>>)
    requires d.JObj?
    ensures r == DomainDates(d)
  {
    var fbc := At(d, "findings_by_category");
    if !Truthy(fbc) {
      return Some([]);
    }
    if !fbc.JObj? {
      return None;
    }
    var lists := fbc.fields;
    var dates: seq<string> := [];
    var i := 0;
    while i < |lists|
      invariant 0 <= i <= |lists|
      invariant FbcDates(lists[..i]) == Some(dates)
    {
      var items := Iterate(lists[i].1);
      if items.None? {
        FbcDatesStops(lists, i);
        return None;
      }
      var more := CollectListDates(items.value);
      if more.None? {
        FbcDatesStops(lists, i);
        return None;
      }
      FbcDatesSnoc(lists, i, dates, more.value);
      dates := dates + more.value;
      i := i + 1;
    }
    assert lists[..i] == lists;
    r := Some(dates);
  }

  /** A domain record that raises makes the whole table raise. */
  lemma RowsOfStops(selected: Option<int>, ds: seq<Json>, i: nat)
    requires i < |ds| && RowOf(selected, ds[i]).None?
    ensures RowsOf(selected, ds).None?
  {
    RowsOfMeaning(selected, ds);
  }

  /** One more record that gives a row appends that row. */
  lemma RowsOfSnoc(selected: Option<int>, ds: seq<Json>, i: nat, rows: seq<DomainsRow>)
    requires i < |ds| && RowsOf(selected, ds[..i]) == Some(rows) && RowOf(selected, ds[i]).Some?
    ensures RowsOf(selected, ds[..i + 1]) == Some(rows + [RowOf(selected, ds[i]).value])
  {
    assert RowFn(selected)(ds[i]) == RowOf(selected, ds[i]);
    MapOrRaiseSnoc(ds, i, RowFn(selected), rows);
  }

  /** The loop body for one domain record: its row, or the raise. */
  method DomainRow(selected: Option<int>, d: Json) returns (r: Option<DomainsRow>)
    ensures r == RowOf(selected, d)
  {
    if !d.JObj? {
      return None;
    }
    var dates := CollectDomainDates(d);
    if dates.None? {
      return None;
    }
    r := Some(RowFrom(selected, d, dates.value));
  }

  /** The loop over the company's domain records. */
  method CollectRows(selected: Option<int>, domains: seq<Json>) returns (r: Option<seq<DomainsRow>>)
    ensures r == RowsOf(selected, domains)
  {
    var rows: seq<DomainsRow> := [];
    var i := 0;
    while i < |domains|
      invariant 0 <= i <= |domains|
      invariant RowsOf(selected, domains[..i]) == Some(rows)
    {
      var row := DomainRow(selected, domains[i]);
      if row.None? {
        RowsOfStops(selected, domains, i);
        return None;
      }
      RowsOfSnoc(selected, domains, i, rows);
      rows := rows + [row.value];
      i := i + 1;
    }
    assert domains[..i] == domains;
    r := Some(rows);
  }

  /** `_domains_table`: `for d in company_domains or []`, then the rows. */
  method BuildDomainsTable(selected: Option<int>, companyDomains: Json) returns (r: Option<seq<DomainsRow>>)
    ensures r == DomainsTable(selected, companyDomains)
  {
    var ds := Iterate(companyDomains);
    if ds.None? {
      return None;
    }
    r := CollectRows(selected, ds.value);
  }
}
