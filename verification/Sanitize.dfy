/** Audit metadata: what survives on its way into the log. */
module Sanitize {
  import Text

  /** Anything but a dictionary is a leaf and is stored as it is. */
  datatype Value = Leaf(content: string) | Dictionary(entries: seq<Entry>)

  datatype Entry = Entry(key: string, value: Value)

  const SENSITIVE_KEYS := {
    "authorization", "authorization_header", "api_key", "secret", "password", "token",
    "credentials", "stack_trace", "traceback", "raw_payload", "webhook_secret"}

  function Underscored(s: string): (r: string)
    ensures |r| == |s|
  {
    seq(|s|, i requires 0 <= i < |s| => if s[i] == '-' then '_' else s[i])
  }

  predicate EndsWith(s: string, suffix: string) {
    |suffix| <= |s| && s[|s| - |suffix|..] == suffix
  }

  predicate Sensitive(key: string) {
    var normalized := Underscored(Text.Lower(key));
    normalized in SENSITIVE_KEYS || EndsWith(normalized, "_secret") || EndsWith(normalized, "_token")
  }

  const SECRETS: seq<string> :=
    ["api_key", "secret", "password", "token", "credentials", "authorization", "authorization_header",
     "webhook_secret", "stack_trace", "traceback", "raw_payload"]

  predicate Same(s: string, t: string) {
    |s| == |t| && forall i :: 0 <= i < |s| ==> Plain(s[i]) == Plain(t[i])
  }

  /** A letter without its case, a hyphen as an underscore. */
  function Plain(c: char): char {
    if c == '-' then '_' else Text.LowerChar(c)
  }

  lemma PlainText(s: string, t: string)
    requires forall i :: 0 <= i < |t| ==> Plain(t[i]) == t[i]
    ensures Same(s, t) <==> Underscored(Text.Lower(s)) == t
  {
    var u := Underscored(Text.Lower(s));
    assert forall i :: 0 <= i < |s| ==> u[i] == Plain(s[i]);
  }

  lemma NameExactly(key: string)
    ensures Underscored(Text.Lower(key)) in SENSITIVE_KEYS <==> exists k :: 0 <= k < |SECRETS| && Same(key, SECRETS[k])
  {
    var u := Underscored(Text.Lower(key));
    SecretsAreSensitive();
    forall k | 0 <= k < |SECRETS|
      ensures Same(key, SECRETS[k]) <==> u == SECRETS[k]
    {
      SecretIsPlain(k);
      PlainText(key, SECRETS[k]);
    }
  }

  lemma SecretIsPlain(k: nat)
    requires k < |SECRETS|
    ensures forall i :: 0 <= i < |SECRETS[k]| ==> Plain(SECRETS[k][i]) == SECRETS[k][i]
  {
  }

  lemma SuffixExactly(key: string, suffix: string)
    requires forall i :: 0 <= i < |suffix| ==> Plain(suffix[i]) == suffix[i]
    ensures EndsWith(Underscored(Text.Lower(key)), suffix)
       <==> |key| >= |suffix| && Same(key[|key| - |suffix|..], suffix)
  {
    if |key| >= |suffix| {
      var tail := key[|key| - |suffix|..];
      assert Underscored(Text.Lower(key))[|key| - |suffix|..] == Underscored(Text.Lower(tail));
      PlainText(tail, suffix);
    }
  }

  /** A key is sensitive iff, case and hyphens aside, it is one of eleven names or ends in one of two suffixes. */
  lemma SensitiveExactly(key: string)
    ensures Sensitive(key)
       <==> || (exists k :: 0 <= k < |SECRETS| && Same(key, SECRETS[k]))
            || (|key| >= 7 && Same(key[|key| - 7..], "_secret")) || (|key| >= 6 && Same(key[|key| - 6..], "_token"))
  {
    NameExactly(key);
    SuffixExactly(key, "_secret");
    SuffixExactly(key, "_token");
  }

  lemma SecretsAreSensitive()
    ensures forall s :: s in SENSITIVE_KEYS <==> s in SECRETS
  {
  }

  // ------------------------------------------------------------ the loop and its specification

  /** What one entry contributes: nothing, itself, or its cleaned sub-dictionary when something is left of it. */
  function SanitizedEntry(entry: Entry): seq<Entry>
    decreases entry
  {
    if Sensitive(entry.key) then []
    else
      match entry.value
      case Leaf(_) => [entry]
      case Dictionary(entries) =>
        var nested := Sanitized(entries);
        if nested == [] then [] else [Entry(entry.key, Dictionary(nested))]
  }

  function Sanitized(entries: seq<Entry>): seq<Entry>
    decreases entries
  {
    if entries == [] then [] else Sanitized(entries[..|entries| - 1]) + SanitizedEntry(entries[|entries| - 1])
  }

  method SanitizeMetadata(metadata: seq<Entry>) returns (sanitized: seq<Entry>)
    ensures sanitized == Sanitized(metadata)
    decreases metadata
  {
    sanitized := [];
    for i := 0 to |metadata|
      invariant sanitized == Sanitized(metadata[..i])
    {
      assert metadata[..i + 1][..i] == metadata[..i];
      var key, value := metadata[i].key, metadata[i].value;
      if Sensitive(key) {
        continue;
      }
      if value.Dictionary? {
        var nested := SanitizeMetadata(value.entries);
        if nested != [] {
          sanitized := sanitized + [Entry(key, Dictionary(nested))];
        }
        continue;
      }
      sanitized := sanitized + [metadata[i]];
    }
    assert metadata[..|metadata|] == metadata;
  }

  // ------------------------------------------------------------ clean metadata

  /** No sensitive key and no empty sub-dictionary at any depth. */
  predicate CleanEntry(entry: Entry)
    decreases entry
  {
    !Sensitive(entry.key)
    && match entry.value
       case Leaf(_) => true
       case Dictionary(entries) => entries != [] && Clean(entries)
  }

  predicate Clean(entries: seq<Entry>)
    decreases entries
  {
    entries == [] || (Clean(entries[..|entries| - 1]) && CleanEntry(entries[|entries| - 1]))
  }

  lemma {:induction false} CleanAppend(entries: seq<Entry>, more: seq<Entry>)
    requires |more| <= 1
    ensures Clean(entries + more) <==> Clean(entries) && Clean(more)
  {
    if more == [] {
      assert entries + more == entries;
    } else {
      assert (entries + more)[..|entries + more| - 1] == entries;
      assert more[..0] == [];
    }
  }

  lemma {:induction false} SanitizedEntryIsClean(entry: Entry)
    ensures |SanitizedEntry(entry)| <= 1 && Clean(SanitizedEntry(entry))
    decreases entry
  {
    match entry.value
    case Leaf(_) => CleanSingle(entry);
    case Dictionary(entries) =>
      SanitizedIsClean(entries);
      CleanSingle(Entry(entry.key, Dictionary(Sanitized(entries))));
  }

  lemma CleanSingle(entry: Entry)
    ensures Clean([entry]) <==> CleanEntry(entry)
  {
    assert [entry][..0] == [];
  }

  /** Nothing sensitive is left at any depth. */
  lemma {:induction false} SanitizedIsClean(entries: seq<Entry>)
    ensures Clean(Sanitized(entries))
    decreases entries
  {
    if entries != [] {
      SanitizedIsClean(entries[..|entries| - 1]);
      SanitizedEntryIsClean(entries[|entries| - 1]);
      CleanAppend(Sanitized(entries[..|entries| - 1]), SanitizedEntry(entries[|entries| - 1]));
    }
  }

  lemma {:induction false} CleanEntryIsKept(entry: Entry)
    requires CleanEntry(entry)
    ensures SanitizedEntry(entry) == [entry]
    decreases entry
  {
    if entry.value.Dictionary? {
      CleanIsKept(entry.value.entries);
    }
  }

  lemma {:induction false} CleanIsKept(entries: seq<Entry>)
    requires Clean(entries)
    ensures Sanitized(entries) == entries
    decreases entries
  {
    if entries != [] {
      CleanIsKept(entries[..|entries| - 1]);
      CleanEntryIsKept(entries[|entries| - 1]);
    }
  }

  /** Sanitizing changes nothing exactly when the metadata is clean, and so never changes its own output. */
  lemma UnchangedIffClean(entries: seq<Entry>)
    ensures Sanitized(entries) == entries <==> Clean(entries)
    ensures Sanitized(Sanitized(entries)) == Sanitized(entries)
  {
    SanitizedIsClean(entries);
    CleanIsKept(Sanitized(entries));
    if Clean(entries) {
      CleanIsKept(entries);
    }
  }

  // ------------------------------------------------------------ what survives

  /** A leaf with the keys that lead to it. */
  datatype Located = Located(path: seq<string>, content: string)

  function Under(key: string, leaves: seq<Located>): (r: seq<Located>)
    ensures |r| == |leaves|
  {
    seq(|leaves|, i requires 0 <= i < |leaves| => Located([key] + leaves[i].path, leaves[i].content))
  }

  function EntryLeaves(entry: Entry): seq<Located>
    decreases entry
  {
    match entry.value
    case Leaf(content) => [Located([entry.key], content)]
    case Dictionary(entries) => Under(entry.key, Leaves(entries))
  }

  function Leaves(entries: seq<Entry>): seq<Located>
    decreases entries
  {
    if entries == [] then [] else Leaves(entries[..|entries| - 1]) + EntryLeaves(entries[|entries| - 1])
  }

  predicate Innocent(path: seq<string>) {
    forall i :: 0 <= i < |path| ==> !Sensitive(path[i])
  }

  function Surviving(leaves: seq<Located>): seq<Located> {
    if leaves == [] then []
    else
      Surviving(leaves[..|leaves| - 1])
      + (if Innocent(leaves[|leaves| - 1].path) then [leaves[|leaves| - 1]] else [])
  }

  lemma {:induction false} SurvivingAppend(xs: seq<Located>, ys: seq<Located>)
    ensures Surviving(xs + ys) == Surviving(xs) + Surviving(ys)
  {
    if ys == [] {
      assert xs + ys == xs;
    } else {
      SurvivingAppend(xs, ys[..|ys| - 1]);
      assert (xs + ys)[..|xs + ys| - 1] == xs + ys[..|ys| - 1];
    }
  }

  lemma InnocentUnder(key: string, path: seq<string>)
    ensures Innocent([key] + path) <==> !Sensitive(key) && Innocent(path)
  {
    assert ([key] + path)[0] == key;
    assert forall i :: 0 <= i < |path| ==> ([key] + path)[i + 1] == path[i];
  }

  lemma {:induction false} SurvivingUnder(key: string, leaves: seq<Located>)
    ensures Surviving(Under(key, leaves)) == if Sensitive(key) then [] else Under(key, Surviving(leaves))
  {
    if leaves != [] {
      var front, last := leaves[..|leaves| - 1], leaves[|leaves| - 1];
      SurvivingUnder(key, front);
      assert Under(key, leaves)[..|leaves| - 1] == Under(key, front);
      InnocentUnder(key, last.path);
      if !Sensitive(key) && Innocent(last.path) {
        assert Surviving(leaves) == Surviving(front) + [last];
        assert Under(key, Surviving(front) + [last])
            == Under(key, Surviving(front)) + [Located([key] + last.path, last.content)];
      }
    }
  }

  lemma LeavesOfOne(entry: Entry)
    ensures Leaves([entry]) == EntryLeaves(entry)
  {
    assert [entry][..0] == [];
  }

  lemma LeavesAppend(entries: seq<Entry>, more: seq<Entry>)
    requires |more| <= 1
    ensures Leaves(entries + more) == Leaves(entries) + Leaves(more)
  {
    if more == [] {
      assert entries + more == entries;
    } else {
      assert (entries + more)[..|entries + more| - 1] == entries;
      LeavesOfOne(more[0]);
      assert more == [more[0]];
    }
  }

  lemma {:induction false} EntryLeavesSurvive(entry: Entry)
    ensures Leaves(SanitizedEntry(entry)) == Surviving(EntryLeaves(entry))
    decreases entry
  {
    match entry.value
    case Leaf(content) =>
      InnocentUnder(entry.key, []);
      LeavesOfOne(entry);
      assert [entry.key] + [] == [entry.key];
      var leaves := EntryLeaves(entry);
      assert leaves[..0] == [];
    case Dictionary(entries) =>
      LeavesSurvive(entries);
      SurvivingUnder(entry.key, Leaves(entries));
      if !Sensitive(entry.key) && Sanitized(entries) != [] {
        LeavesOfOne(Entry(entry.key, Dictionary(Sanitized(entries))));
      }
  }

  /** The leaves of the result are exactly the leaves no sensitive key leads to, unchanged and in order. */
  lemma {:induction false} LeavesSurvive(entries: seq<Entry>)
    ensures Leaves(Sanitized(entries)) == Surviving(Leaves(entries))
    decreases entries
  {
    if entries != [] {
      var front, last := entries[..|entries| - 1], entries[|entries| - 1];
      LeavesSurvive(front);
      EntryLeavesSurvive(last);
      SanitizedEntryIsClean(last);
      LeavesAppend(Sanitized(front), SanitizedEntry(last));
      SurvivingAppend(Leaves(front), EntryLeaves(last));
    }
  }
}
