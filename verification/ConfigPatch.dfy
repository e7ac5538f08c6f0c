/** A patch: edits of settings and of lists, one after the other, and the check that nothing else moved. */
module ConfigPatch {
  import opened Wrappers
  import opened ConfigText
  import opened ConfigEdit
  import opened ConfigReading
  import opened ConfigTidy
  import opened ConfigLists
  import opened ConfigListReading
  import opened ConfigItems
  import opened ConfigComments

  // ---- everything a text says ----------------------------------------------------------------

  /** What an edit can name: one setting, or a list of tables as a whole. */
  datatype Name = One(key: Key) | Many(list: string)

  /** What a text says of a name, as it is written. */
  datatype Value = Text(written: string) | Rows(items: seq<seq<Field>>)

  /** The settings outside the lists, and the lists that have elements. */
  function Whole(ls: seq<string>, lists: set<string>): map<Name, Value> {
    (map key | key in Settings(ls) && !Listed(key.table, lists) :: One(key) := Text(Settings(ls)[key]))
    + (map list | list in lists && Elements(ls, list) != [] :: Many(list) := Rows(Elements(ls, list)))
  }

  /** What a name is meant to have: a value, or none. */
  datatype Want<V> = Want(name: Name, value: Option<V>)

  function Changed<V>(said: map<Name, V>, want: Want<V>): map<Name, V> {
    if want.value.Some? then said[want.name := want.value.value] else said - {want.name}
  }

  /** What a text is meant to say after all the edits. */
  function WantedAll<V>(said: map<Name, V>, wants: seq<Want<V>>): map<Name, V> {
    if wants == [] then said else Changed(WantedAll(said, wants[..|wants| - 1]), wants[|wants| - 1])
  }

  lemma {:induction false} WholeAt(ls: seq<string>, lists: set<string>, name: Name)
    ensures match name
            case One(key) =>
              && (name in Whole(ls, lists) <==> key in Settings(ls) && !Listed(key.table, lists))
              && (name in Whole(ls, lists) ==> Whole(ls, lists)[name] == Text(Settings(ls)[key]))
            case Many(list) =>
              && (name in Whole(ls, lists) <==> list in lists && Elements(ls, list) != [])
              && (name in Whole(ls, lists) ==> Whole(ls, lists)[name] == Rows(Elements(ls, list)))
  {
    hide Settings, Elements, Listed;
  }

  // ---- one edit --------------------------------------------------------------------------------

  /** A setting is given a value or taken back to a comment holding its default; a list is written as a unit, and
      taking it back is writing no elements. */
  datatype Edit =
    | SetValue(key: Key, value: string)
    | TakeBack(key: Key, value: string)
    | SetList(list: string, items: seq<seq<Field>>)

  function NameOf(edit: Edit): Name {
    if edit.SetList? then Many(edit.list) else One(edit.key)
  }

  function WantOf(edit: Edit): Want<Value> {
    match edit
    case SetValue(key, value) => Want(One(key), Some(Text(value)))
    case TakeBack(key, _) => Want(One(key), None)
    case SetList(list, items) => Want(Many(list), if items == [] then None else Some(Rows(items)))
  }

  function WantsOf(edits: seq<Edit>): (wants: seq<Want<Value>>)
    ensures |wants| == |edits| && forall i :: 0 <= i < |edits| ==> wants[i] == WantOf(edits[i])
  {
    seq(|edits|, i requires 0 <= i < |edits| => WantOf(edits[i]))
  }

  ghost predicate WritableItems(items: seq<seq<Field>>) {
    forall item, f :: item in items && f in item ==> BareKey(f.name) && Plain(f.value)
  }

  /** An edit that can be written on lines of its own. */
  ghost predicate Fitting(edit: Edit, lists: set<string>) {
    match edit
    case SetList(list, items) => list in lists && WritableItems(items)
    case _ => Writable(edit.key, edit.value) && !Listed(edit.key.table, lists)
  }

  /** Lists whose names can be written as headings, none of them part of another. */
  ghost predicate Separate(lists: set<string>) {
    && (forall list :: list in lists ==> BareTable(list))
    && (forall list, other :: list in lists && other in lists && list != other ==> Unrelated(list, other))
  }

  /** Everything the text says is what it said, but for one name. */
  lemma {:induction false} OneChanged(was: seq<string>, now: seq<string>, want: Want<Value>, lists: set<string>)
    requires forall name: Name :: name != want.name ==>
               && (name in Whole(now, lists) <==> name in Whole(was, lists))
               && (name in Whole(now, lists) ==> Whole(now, lists)[name] == Whole(was, lists)[name])
    requires want.name in Whole(now, lists) <==> want.value.Some?
    requires want.name in Whole(now, lists) ==> Whole(now, lists)[want.name] == want.value.value
    ensures Whole(now, lists) == Changed(Whole(was, lists), want)
  {
    hide Whole;
    var said, wanted := Whole(now, lists), Changed(Whole(was, lists), want);
    assert forall name :: name in said <==> name in wanted;
    assert forall name :: name in said ==> said[name] == wanted[name];
  }

  /** Editing one setting changes what the text says of it alone. */
  lemma {:induction false} ValueEdited(was: seq<string>, edit: Edit, e: LineEdit, lists: set<string>)
    requires Tidy(was, lists) && !edit.SetList? && Fitting(edit, lists)
    requires Fits(was, e) && Asked(was, edit.key, edit.value, edit.TakeBack?, e)
    ensures Tidy(Apply(was, e), lists) && Lines(Join(Apply(was, e))) == Apply(was, e)
    ensures Whole(Apply(was, e), lists) == Changed(Whole(was, lists), WantOf(edit))
  {
    hide Whole, Settings, Elements, Apply, Asked, Readable, OnceFrom, Lined, Fits, Lines, Join, Writable, Belongs;
    var now := Apply(was, e);
    EditReads(was, edit.key, edit.value, edit.TakeBack?, e, lists);
    EditTidy(was, edit.key, edit.value, edit.TakeBack?, e, lists);
    forall name: Name
      ensures name != One(edit.key) ==>
                && (name in Whole(now, lists) <==> name in Whole(was, lists))
                && (name in Whole(now, lists) ==> Whole(now, lists)[name] == Whole(was, lists)[name])
    {
      WholeAt(was, lists, name);
      WholeAt(now, lists, name);
      if name.Many? && name.list in lists {
        EditKeepsItems(was, edit.key, edit.value, edit.TakeBack?, e, name.list);
      }
    }
    WholeAt(now, lists, One(edit.key));
    OneChanged(was, now, WantOf(edit), lists);
  }

  /** The rendered text of a list is its lines. */
  lemma {:induction false} RenderedLines(list: string, items: seq<seq<Field>>)
    requires BareTable(list) && WritableItems(items)
    ensures Lines(Join(ItemLines(list, items))) == ItemLines(list, items) && Readable(ItemLines(list, items))
    ensures IsListText(Join(ItemLines(list, items)), list)
  {
    hide Meant, Join, Lines, IsLine, ItemLines;
    var ls := ItemLines(list, items);
    OurLines(list, items);
    RenderedIsListText(list, items);
    assert forall i :: 0 <= i < |ls| ==> ls[i] in ls;
    LinesUnique(ls);
  }

  /** Writing a list changes what the text says of it alone, and it reads back as the elements written. */
  lemma {:induction false} ListWritten(text: string, edit: Edit, table: string, block: string, out: string,
      lists: set<string>)
    requires Tidy(Lines(text), lists) && Separate(lists) && edit.SetList? && Fitting(edit, lists)
    requires block == Join(ItemLines(edit.list, edit.items)) && ListEdited(text, edit.list, table, block, out)
    ensures Tidy(Lines(out), lists)
    ensures Whole(Lines(out), lists) == Changed(Whole(Lines(text), lists), WantOf(edit))
  {
    hide Whole, Settings, Elements, Readable, OnceFrom, Lined, Lines, Join, Belongs, ListEdited, Suits, NowLines,
        OursOnly, ItemLines, BareTable, Outside;
    var list, items, was, now := edit.list, edit.items, Lines(text), Lines(out);
    RenderedLines(list, items);
    var lines := ItemLines(list, items);
    var e := ListEditLines(text, list, table, block, out);
    NowReadable(was, list, lines, e);
    NowOnce(was, list, lines, e, lists);
    NowElements(was, list, lines, e);
    ElementsWritten(list, items);
    NowOutside(was, list, lines, e);
    forall name: Name
      ensures name != Many(list) ==>
                && (name in Whole(now, lists) <==> name in Whole(was, lists))
                && (name in Whole(now, lists) ==> Whole(now, lists)[name] == Whole(was, lists)[name])
    {
      WholeAt(was, lists, name);
      WholeAt(now, lists, name);
      match name
      case Many(other) =>
        if other in lists && other != list {
          NowOthers(was, list, lines, e, other);
        }
      case One(key) =>
        OutsideAt(Settings(was), Settings(now), list, key, lists);
    }
    WholeAt(now, lists, Many(list));
    OneChanged(was, now, WantOf(edit), lists);
  }

  lemma {:induction false} ElementsWritten(list: string, items: seq<seq<Field>>)
    requires BareTable(list) && WritableItems(items)
    ensures Elements(ItemLines(list, items), list) == items
  {
    hide ItemsFrom, ItemLines, BareTable;
    ItemsRead(NO_ITEMS, list, items);
    assert [] + items == items;
  }

  lemma {:induction false} OutsideAt(was: map<Key, string>, now: map<Key, string>, list: string, key: Key,
      lists: set<string>)
    requires Outside(was, list) == Outside(now, list) && list in lists
    ensures !Listed(key.table, lists) ==> (key in was <==> key in now) && (key in now ==> was[key] == now[key])
  {
    hide Belongs;
    if !Listed(key.table, lists) {
      assert key in Outside(was, list) <==> key in Outside(now, list);
    }
  }

  // ---- the check ---------------------------------------------------------------------------------

  /** The last edit of each name. */
  function LastWants<V>(wants: seq<Want<V>>): map<Name, Option<V>> {
    if wants == [] then map[]
    else LastWants(wants[..|wants| - 1])[wants[|wants| - 1].name := wants[|wants| - 1].value]
  }

  predicate Has<V(==)>(said: map<Name, V>, name: Name, value: Option<V>) {
    if value.Some? then name in said && said[name] == value.value else name !in said
  }

  lemma {:induction false} WantedAt<V>(said: map<Name, V>, wants: seq<Want<V>>, name: Name)
    ensures var now, last := WantedAll(said, wants), LastWants(wants);
            if name in last then Has(now, name, last[name])
            else (name in now <==> name in said) && (name in now ==> now[name] == said[name])
  {
    if wants != [] {
      WantedAt(said, wants[..|wants| - 1], name);
    }
  }

  predicate Stays<V(==)>(was: map<Name, V>, now: map<Name, V>, name: Name)
    requires name in was
  {
    name in now && now[name] == was[name]
  }

  ghost predicate Accepts<V>(was: map<Name, V>, now: map<Name, V>, last: map<Name, Option<V>>) {
    && (forall name :: name in was ==> name in last || Stays(was, now, name))
    && (forall name :: name in now ==> name in last || name in was)
    && (forall name :: name in last ==> Has(now, name, last[name]))
  }

  /** The check passes exactly when the text says what it was meant to. */
  lemma {:induction false} AcceptsIff<V>(was: map<Name, V>, now: map<Name, V>, wants: seq<Want<V>>)
    ensures Accepts(was, now, LastWants(wants)) <==> now == WantedAll(was, wants)
  {
    hide WantedAll, LastWants;
    var wanted := WantedAll(was, wants);
    forall name: Name
      ensures var last := LastWants(wants);
              if name in last then Has(wanted, name, last[name])
              else (name in wanted <==> name in was) && (name in wanted ==> wanted[name] == was[name])
    {
      WantedAt(was, wants, name);
    }
    if Accepts(was, now, LastWants(wants)) {
      assert forall name :: name in now <==> name in wanted;
      assert forall name :: name in now ==> now[name] == wanted[name];
      assert now == wanted;
    }
  }

  method NothingWasChanged<V(==)>(was: map<Name, V>, now: map<Name, V>, last: map<Name, Option<V>>) returns (ok: bool)
    ensures ok <==> forall name :: name in was ==> name in last || Stays(was, now, name)
  {
    var left := was.Keys;
    while left != {}
      invariant left <= was.Keys
      invariant forall name :: name in was && name !in left ==> name in last || Stays(was, now, name)
      decreases |left|
    {
      var name :| name in left;
      if name !in last && !Stays(was, now, name) {
        return false;
      }
      left := left - {name};
    }
    return true;
  }

  method NothingWasAdded<V(==)>(was: map<Name, V>, now: map<Name, V>, last: map<Name, Option<V>>) returns (ok: bool)
    ensures ok <==> forall name :: name in now ==> name in last || name in was
  {
    var left := now.Keys;
    while left != {}
      invariant left <= now.Keys
      invariant forall name :: name in now && name !in left ==> name in last || name in was
      decreases |left|
    {
      var name :| name in left;
      if name !in last && name !in was {
        return false;
      }
      left := left - {name};
    }
    return true;
  }

  method EditsTook<V(==)>(now: map<Name, V>, last: map<Name, Option<V>>) returns (ok: bool)
    ensures ok <==> forall name :: name in last ==> Has(now, name, last[name])
  {
    var left := last.Keys;
    while left != {}
      invariant left <= last.Keys
      invariant forall name :: name in last && name !in left ==> Has(now, name, last[name])
      decreases |left|
    {
      var name :| name in left;
      if !Has(now, name, last[name]) {
        return false;
      }
      left := left - {name};
    }
    return true;
  }

  /** Compares what a text says with what it was meant to say. */
  method NothingElseChanged<V(==)>(was: map<Name, V>, now: map<Name, V>, wants: seq<Want<V>>) returns (ok: bool)
    ensures ok <==> now == WantedAll(was, wants)
  {
    hide WantedAll;
    AcceptsIff(was, now, wants);
    var last: map<Name, Option<V>> := map[];
    for i := 0 to |wants|
      invariant last == LastWants(wants[..i])
    {
      assert wants[..i + 1][..i] == wants[..i];
      last := last[wants[i].name := wants[i].value];
    }
    assert wants[..|wants|] == wants;
    var same := NothingWasChanged(was, now, last);
    if !same {
      return false;
    }
    same := NothingWasAdded(was, now, last);
    if !same {
      return false;
    }
    ok := EditsTook(now, last);
  }

  // ---- values as they read -------------------------------------------------------------------------

  function Seen<V>(said: map<Name, Value>, read: Value -> V): map<Name, V> {
    map name | name in said :: read(said[name])
  }

  function SeenWant<V>(want: Want<Value>, read: Value -> V): Want<V> {
    Want(want.name, if want.value.Some? then Some(read(want.value.value)) else None)
  }

  function SeenWants<V>(wants: seq<Want<Value>>, read: Value -> V): (r: seq<Want<V>>)
    ensures |r| == |wants| && forall i :: 0 <= i < |wants| ==> r[i] == SeenWant(wants[i], read)
  {
    seq(|wants|, i requires 0 <= i < |wants| => SeenWant(wants[i], read))
  }

  /** However values are read, a text that says what was wanted reads as what was wanted. */
  lemma {:induction false} SeenAll<V>(said: map<Name, Value>, wants: seq<Want<Value>>, read: Value -> V)
    ensures Seen(WantedAll(said, wants), read) == WantedAll(Seen(said, read), SeenWants(wants, read))
  {
    if wants != [] {
      var init, last := wants[..|wants| - 1], wants[|wants| - 1];
      SeenAll(said, init, read);
      assert SeenWants(wants, read)[..|wants| - 1] == SeenWants(init, read);
      SeenChange(WantedAll(said, init), last, read);
    }
  }

  lemma {:induction false} SeenChange<V>(said: map<Name, Value>, want: Want<Value>, read: Value -> V)
    ensures Seen(Changed(said, want), read) == Changed(Seen(said, read), SeenWant(want, read))
  {
  }

  // ---- the patch -------------------------------------------------------------------------------------

  /** The section a name is in: all but its last part. */
  function Parent(name: string): string {
    if name == "" then ""
    else if name[|name| - 1] == '.' then name[..|name| - 1]
    else Parent(name[..|name| - 1])
  }

  /** A name is what it hangs off, a dot, and a last part. */
  lemma {:induction false} ParentIs(section: string, last: string)
    requires '.' !in last
    ensures Parent(section + "." + last) == section && Parent(last) == ""
  {
    if last == "" {
      assert section + "." + "" == section + ".";
    } else {
      var init, name := last[..|last| - 1], section + "." + last;
      assert last == init + [last[|last| - 1]] && last[|last| - 1] in last;
      assert name[..|name| - 1] == section + "." + init;
      ParentIs(section, init);
    }
  }

  function ListsOf(known: set<Name>): set<string> {
    set name | name in known && name.Many? :: name.list
  }

  /** The names by which a patch may switch on settings that are commented out. */
  ghost function Leaves(edits: seq<Edit>): (leaves: set<string>)
    ensures forall i :: 0 <= i < |edits| && !edits[i].SetList? ==> edits[i].key.leaf in leaves
  {
    set i | 0 <= i < |edits| && !edits[i].SetList? :: edits[i].key.leaf
  }

  /** Writing a list keeps the remarks outside its elements. */
  lemma {:induction false} ListKeepsRemarks(text: string, edit: Edit, table: string, block: string, out: string,
      lists: set<string>, leaves: set<string>)
    requires Separate(lists) && edit.SetList? && Fitting(edit, lists)
    requires block == Join(ItemLines(edit.list, edit.items)) && ListEdited(text, edit.list, table, block, out)
    ensures RemarksOf(Lines(out), lists, leaves) == RemarksOf(Lines(text), lists, leaves)
  {
    hide Lined, Lines, Join, ListEdited, Suits, NowLines, OursOnly, ItemLines, BareTable, Readable, RemarksOf,
        NoComment;
    RenderedLines(edit.list, edit.items);
    RenderedHasNone(edit.list, edit.items);
    var e := ListEditLines(text, edit.list, table, block, out);
    NowRemarks(Lines(text), edit.list, ItemLines(edit.list, edit.items), e, lists, leaves);
  }

  /** Makes one edit. */
  method MakeEdit(text: string, edit: Edit, ghost lists: set<string>, ghost leaves: set<string>)
      returns (out: string)
    requires Tidy(Lines(text), lists) && Separate(lists) && Fitting(edit, lists)
    requires !edit.SetList? ==> edit.key.leaf in leaves
    ensures Tidy(Lines(out), lists) && Whole(Lines(out), lists) == Changed(Whole(Lines(text), lists), WantOf(edit))
    ensures RemarksOf(Lines(out), lists, leaves) == RemarksOf(Lines(text), lists, leaves)
  {
    hide Whole, Lines, Join, Apply, Asked, Readable, OnceFrom, Lined, Fits, ListEdited, ItemLines, Changed, RemarksOf;
    match edit
    case SetList(list, items) =>
      var block := RenderItems(list, items);
      out := EditList(text, list, Parent(list), block);
      ListWritten(text, edit, Parent(list), block, out, lists);
      ListKeepsRemarks(text, edit, Parent(list), block, out, lists, leaves);
    case _ =>
      out := EditValue(text, edit.key, edit.value, edit.TakeBack?);
      ghost var e :| Edited(Lines(text), edit.key, edit.value, edit.TakeBack?, e, out);
      ValueEdited(Lines(text), edit, e, lists);
      EditKeepsRemarks(Lines(text), edit.key, edit.value, edit.TakeBack?, e, lists, leaves);
  }

  /** Applies the edits. The result says what the text said with the edits' names changed, and nothing else; every
      comment is still there, in order, but for those inside elements of lists and the edited settings commented out;
      and the check agrees, however it reads values before comparing them. */
  method Patch<V(==)>(src: string, edits: seq<Edit>, known: set<Name>, read: Value -> V) returns (out: Option<string>)
    requires Tidy(Lines(src), ListsOf(known)) && Separate(ListsOf(known))
    requires forall i :: 0 <= i < |edits| && NameOf(edits[i]) in known ==> Fitting(edits[i], ListsOf(known))
    ensures out.Some? <==> forall i :: 0 <= i < |edits| ==> NameOf(edits[i]) in known
    ensures out.Some? ==>
              && Tidy(Lines(out.value), ListsOf(known))
              && Whole(Lines(out.value), ListsOf(known)) == WantedAll(Whole(Lines(src), ListsOf(known)), WantsOf(edits))
              && RemarksOf(Lines(out.value), ListsOf(known), Leaves(edits))
                 == RemarksOf(Lines(src), ListsOf(known), Leaves(edits))
  {
    hide Lines, RemarksOf, Leaves, Whole, Tidy, Separate, Fitting, ListsOf, Changed;
    var lists := ListsOf(known);
    var text := src;
    for i := 0 to |edits|
      invariant Tidy(Lines(text), lists) && forall j :: 0 <= j < i ==> NameOf(edits[j]) in known
      invariant RemarksOf(Lines(text), lists, Leaves(edits)) == RemarksOf(Lines(src), lists, Leaves(edits))
      invariant Whole(Lines(text), lists) == WantedAll(Whole(Lines(src), lists), WantsOf(edits[..i]))
    {
      if NameOf(edits[i]) !in known {
        return None;
      }
      text := MakeEdit(text, edits[i], lists, Leaves(edits));
      assert WantsOf(edits[..i + 1])[..i] == WantsOf(edits[..i]);
    }
    assert edits[..|edits|] == edits;
    var was, now := Whole(Lines(src), lists), Whole(Lines(text), lists);
    SeenAll(was, WantsOf(edits), read);
    var ok := NothingElseChanged(Seen(was, read), Seen(now, read), SeenWants(WantsOf(edits), read));
    if !ok {
      return None;
    }
    return Some(text);
  }
}
