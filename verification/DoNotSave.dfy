/** The recruiter's veto list: a handle index and a name index built entry by entry, against
    the list they stand for. */
module DoNotSave {
  import opened Wrappers
  import opened Names

  /** An entry as read: the text of its name, the name normalized, and the public handle of
      its URL ("" for none). */
  datatype Entry = Entry(text: string, name: Name, handle: string, reason: string)

  const DEFAULT_BLOCK_REASON := "on the brief's do-not-save list"

  function Message(e: Entry): string {
    (if e.text != "" then e.text else e.handle) + ": " + if e.reason != "" then e.reason else DEFAULT_BLOCK_REASON
  }

  /** A blank name normalizes to no words. */
  predicate WellRead(e: Entry) { e.text == "" ==> e.name.tokens == [] }

  /** An entry that names nobody is skipped. */
  predicate Named(e: Entry) { e.text != "" || e.handle != "" }

  /** The entry rules the candidate out. */
  predicate RulesOut(e: Entry, handle: string, name: Name) {
    || (handle != "" && e.handle == handle)
    || (ShareKey(e.name, name) && !(handle != "" && e.handle != ""))
  }

  // ---- What the two indexes hold, read off the list ----

  function FirstMessage(es: seq<Entry>, handle: string): Option<string> {
    if es == [] then None
    else
      var n := |es| - 1;
      var m := FirstMessage(es[..n], handle);
      if m.Some? then m else if handle != "" && es[n].handle == handle then Some(Message(es[n])) else None
  }

  /** Every entry under a name key, as its handle and message, in list order. */
  function Under(es: seq<Entry>, key: Key): seq<(string, string)> {
    if es == [] then []
    else
      var n := |es| - 1;
      Under(es[..n], key) + if key in NameKeys(es[n].name) then [(es[n].handle, Message(es[n]))] else []
  }

  ghost predicate ByHandle(es: seq<Entry>, handle: string, message: string) {
    exists i :: 0 <= i < |es| && handle != "" && es[i].handle == handle && Message(es[i]) == message
  }

  ghost predicate ByName(es: seq<Entry>, key: Key, p: (string, string)) {
    exists i :: 0 <= i < |es| && key in NameKeys(es[i].name) && p == (es[i].handle, Message(es[i]))
  }

  lemma {:induction false} FirstMessageIs(es: seq<Entry>, handle: string)
    ensures var m := FirstMessage(es, handle);
            && (m.Some? ==> ByHandle(es, handle, m.value))
            && (m.Some? ==> exists i :: 0 <= i < |es| && es[i].handle == handle && Message(es[i]) == m.value
                              && forall j :: 0 <= j < i ==> es[j].handle != handle)
            && (m.None? && handle != "" ==> forall i :: 0 <= i < |es| ==> es[i].handle != handle)
  {
    if es != [] {
      var n := |es| - 1;
      FirstMessageIs(es[..n], handle);
      assert forall i :: 0 <= i < n ==> es[..n][i] == es[i];
      var m := FirstMessage(es[..n], handle);
      if m.Some? {
        var i :| 0 <= i < n && es[..n][i].handle == handle && Message(es[..n][i]) == m.value;
        assert es[i].handle == handle;
      }
    }
  }

  lemma {:induction false} UnderIs(es: seq<Entry>, key: Key, p: (string, string))
    ensures p in Under(es, key) <==> ByName(es, key, p)
  {
    if es != [] {
      var n := |es| - 1;
      UnderIs(es[..n], key, p);
      ByNameGrows(es[..n], es[n], key, p);
      assert es[..n] + [es[n]] == es;
    }
  }

  lemma ByNameGrows(es: seq<Entry>, e: Entry, key: Key, p: (string, string))
    ensures ByName(es + [e], key, p) <==> ByName(es, key, p) || (key in NameKeys(e.name) && p == (e.handle, Message(e)))
  {
    var more := es + [e];
    assert more[|es|] == e;
    if i :| 0 <= i < |es| && key in NameKeys(es[i].name) && p == (es[i].handle, Message(es[i])) {
      assert more[i] == es[i];
    }
  }

  type NameIndex = map<Key, seq<(string, string)>>

  function Listed(index: NameIndex, k: Key): seq<(string, string)> { if k in index then index[k] else [] }

  /** Lists a pair under each of the keys. */
  method ListUnder(index: NameIndex, keys: set<Key>, pair: (string, string)) returns (out: NameIndex)
    ensures forall k :: k in out <==> k in index || k in keys
    ensures forall k :: Listed(out, k) == Listed(index, k) + if k in keys then [pair] else []
  {
    out := index;
    var todo := keys;
    while todo != {}
      invariant todo <= keys
      invariant forall k :: k in out <==> k in index || k in keys - todo
      invariant forall k :: Listed(out, k) == Listed(index, k) + if k in keys - todo then [pair] else []
    {
      var k :| k in todo;
      out := out[k := Listed(out, k) + [pair]];
      todo := todo - {k};
    }
  }

  /** A candidate with this handle is another person than everyone listed. */
  ghost predicate Escaped(listed: seq<(string, string)>, handle: string) {
    forall p :: p in listed ==> handle != "" && p.0 != ""
  }

  /** The first message of the list that a candidate with this handle does not escape. */
  method FirstApplicable(listed: seq<(string, string)>, handle: string) returns (why: Option<string>)
    ensures why.None? ==> Escaped(listed, handle)
    ensures why.Some? ==> exists p :: p in listed && !(handle != "" && p.0 != "") && p.1 == why.value
  {
    for i := 0 to |listed|
      invariant Escaped(listed[..i], handle)
    {
      if handle == "" || listed[i].0 == "" {
        assert listed[i] in listed;
        return Some(listed[i].1);
      }
    }
    assert listed[..|listed|] == listed;
    return None;
  }

  /** Some entry rules the candidate out, and this is what it reports: whom it names, and why. */
  ghost predicate Speaks(es: seq<Entry>, handle: string, name: Name, message: string) {
    exists i :: 0 <= i < |es|
      && ((handle != "" && es[i].handle == handle) || (ShareKey(es[i].name, name) && (handle == "" || es[i].handle == "")))
      && message == (if es[i].text != "" then es[i].text else es[i].handle) + ": "
                    + if es[i].reason != "" then es[i].reason else "on the brief's do-not-save list"
  }

  lemma HandleSpeaks(es: seq<Entry>, handle: string, name: Name, message: string)
    requires ByHandle(es, handle, message)
    ensures Speaks(es, handle, name, message)
  {
    var i :| 0 <= i < |es| && handle != "" && es[i].handle == handle && Message(es[i]) == message;
    assert RulesOut(es[i], handle, name);
  }

  lemma NameSpeaks(es: seq<Entry>, handle: string, name: Name, key: Key, p: (string, string))
    requires key in NameKeys(name) && p in Under(es, key) && !(handle != "" && p.0 != "")
    ensures Speaks(es, handle, name, p.1)
  {
    UnderIs(es, key, p);
    var i :| 0 <= i < |es| && key in NameKeys(es[i].name) && p == (es[i].handle, Message(es[i]));
    assert key in NameKeys(es[i].name) * NameKeys(name);
    assert RulesOut(es[i], handle, name);
  }

  lemma NobodySpeaks(es: seq<Entry>, handle: string, name: Name)
    requires FirstMessage(es, handle).None?
    requires forall k :: k in NameKeys(name) ==> Escaped(Under(es, k), handle)
    ensures forall i :: 0 <= i < |es| ==> !RulesOut(es[i], handle, name)
  {
    FirstMessageIs(es, handle);
    forall i | 0 <= i < |es| ensures !RulesOut(es[i], handle, name) {
      if k :| k in NameKeys(es[i].name) * NameKeys(name) {
        assert ByName(es, k, (es[i].handle, Message(es[i])));
        UnderIs(es, k, (es[i].handle, Message(es[i])));
      }
    }
  }

  ghost predicate HandlesOf(es: seq<Entry>, byHandle: map<string, string>) {
    forall h :: FirstMessage(es, h) == if h in byHandle then Some(byHandle[h]) else None
  }

  ghost predicate NamesOf(es: seq<Entry>, byNameKey: NameIndex) {
    forall k :: Listed(byNameKey, k) == Under(es, k)
  }

  lemma HandlesGrow(es: seq<Entry>, e: Entry, byHandle: map<string, string>)
    requires HandlesOf(es, byHandle)
    ensures HandlesOf(es + [e], if e.handle != "" && e.handle !in byHandle then byHandle[e.handle := Message(e)] else byHandle)
  {
    var now := if e.handle != "" && e.handle !in byHandle then byHandle[e.handle := Message(e)] else byHandle;
    assert (es + [e])[..|es|] == es;
    forall h ensures FirstMessage(es + [e], h) == if h in now then Some(now[h]) else None {
      assert FirstMessage(es, h) == if h in byHandle then Some(byHandle[h]) else None;
    }
  }

  lemma NamesGrow(es: seq<Entry>, e: Entry, byNameKey: NameIndex, now: NameIndex)
    requires NamesOf(es, byNameKey)
    requires forall k :: Listed(now, k) == Listed(byNameKey, k) + if k in NameKeys(e.name) then [(e.handle, Message(e))] else []
    ensures NamesOf(es + [e], now)
  {
    assert (es + [e])[..|es|] == es;
  }

  class DoNotSaveGate {
    var byHandle: map<string, string>
    var byNameKey: NameIndex
    ghost var entries: seq<Entry>

    ghost predicate Valid() reads this { HandlesOf(entries, byHandle) && NamesOf(entries, byNameKey) }

    constructor (given: seq<Entry>)
      requires forall e :: e in given ==> WellRead(e)
      ensures Valid() && entries == given
    {
      byHandle, byNameKey, entries := map[], map[], [];
      new;
      for i := 0 to |given|
        invariant Valid() && entries == given[..i]
      {
        assert given[..i + 1] == given[..i] + [given[i]];
        Add(given[i]);
      }
      assert given[..|given|] == given;
    }

    method Add(e: Entry)
      requires Valid() && WellRead(e)
      modifies this
      ensures Valid() && entries == old(entries) + [e]
    {
      ghost var wasListed := byNameKey;
      HandlesGrow(entries, e, byHandle);
      if Named(e) {
        var message := Message(e);
        if e.handle != "" && e.handle !in byHandle {
          byHandle := byHandle[e.handle := message];
        }
        byNameKey := ListUnder(byNameKey, NameKeys(e.name), (e.handle, message));
      }
      NamesGrow(entries, e, wasListed, byNameKey);
      entries := entries + [e];
    }

    /** A reason exactly when some entry rules the candidate out, and then such an entry's;
        an entry of the candidate's own handle speaks first. */
    method Blocks(handle: string, name: Name) returns (why: Option<string>)
      requires Valid()
      ensures why.Some? <==>
                exists i :: 0 <= i < |entries|
                  && ((handle != "" && entries[i].handle == handle)
                      || (ShareKey(entries[i].name, name) && (handle == "" || entries[i].handle == "")))
      ensures why.Some? ==> Speaks(entries, handle, name, why.value)
      ensures FirstMessage(entries, handle).Some? ==> why == FirstMessage(entries, handle)
    {
      if handle != "" && handle in byHandle {
        FirstMessageIs(entries, handle);
        HandleSpeaks(entries, handle, name, byHandle[handle]);
        return Some(byHandle[handle]);
      }
      NoBlankHandle(entries);
      var todo := NameKeys(name);
      while todo != {}
        invariant todo <= NameKeys(name)
        invariant forall k :: k in NameKeys(name) - todo ==> Escaped(Under(entries, k), handle)
      {
        var k :| k in todo;
        var listed := Listed(byNameKey, k);
        why := FirstApplicable(listed, handle);
        if why.Some? {
          ghost var p :| p in listed && !(handle != "" && p.0 != "") && p.1 == why.value;
          NameSpeaks(entries, handle, name, k, p);
          return;
        }
        todo := todo - {k};
      }
      NobodySpeaks(entries, handle, name);
      return None;
    }
  }

  lemma {:induction false} NoBlankHandle(es: seq<Entry>)
    ensures FirstMessage(es, "").None?
  {
    if es != [] { NoBlankHandle(es[..|es| - 1]); }
  }
}
