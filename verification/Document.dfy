/**
 A pipeline file, checked before anything runs, then resolved
 (crates/loadsmith-config/src/document.rs).
 */
module Document {
  import opened Wrappers
  import opened Text
  import opened Template

  /** The blocks that resolve without providers. */
  const SECRET_FREE_BLOCKS: seq<string> := ["pipeline", "state", "providers", "telemetry"]

  datatype DocError =
    | NotAMapping
    | BadTemplate
    | NotAllowed(at: string, call: SecretRef)
    | Undeclared(at: string, call: SecretRef)

  /** `providers` are the declared instances; `secrets` the distinct calls in document order. */
  datatype Doc = Doc(raw: Value, providers: set<string>, secrets: seq<SecretRef>)

  // ----- locations ---------------------------------------------------------------------

  predicate Divides(c: char) { c == '.' || c == '[' }

  /** A location up to its first `.` or `[`. */
  function Block(at: string): string {
    if at == "" || Divides(at[0]) then "" else [at[0]] + Block(at[1..])
  }

  predicate Undivided(name: string) { forall i :: 0 <= i < |name| ==> !Divides(name[i]) }

  /** `at` is `top` itself or lies below it. */
  predicate Below(top: string, at: string) { top <= at && (|at| == |top| || Divides(at[|top|])) }

  lemma {:induction false} BlockOfBelow(top: string, at: string)
    requires Undivided(top) && Below(top, at)
    ensures Block(at) == top
    decreases |top|
  {
    if top == "" {
    } else {
      assert at[1..][..|top| - 1] == top[1..];
      BlockOfBelow(top[1..], at[1..]);
      assert top == [top[0]] + top[1..];
    }
  }

  lemma BelowIsTransitive(top: string, mid: string, at: string)
    requires Below(top, mid) && Below(mid, at)
    ensures Below(top, at)
  {
    assert at[..|mid|] == mid && mid[..|top|] == top;
    assert at[..|top|] == at[..|mid|][..|top|];
    if |mid| > |top| { assert at[|top|] == mid[|top|]; }
  }

  predicate AllBelow(found: seq<Found>, top: string) { forall i :: 0 <= i < |found| ==> Below(top, found[i].at) }

  lemma AllBelowConcat(a: seq<Found>, b: seq<Found>, top: string)
    requires AllBelow(a, top) && AllBelow(b, top)
    ensures AllBelow(a + b, top)
  {
  }

  lemma {:induction false} CallsAreAt(pieces: seq<Piece>, at: string)
    ensures forall i :: 0 <= i < |CallsIn(pieces, at)| ==> CallsIn(pieces, at)[i].at == at
  {
    if pieces != [] { CallsAreAt(pieces[..|pieces| - 1], at); }
  }

  /** Every call of a subtree is found at or below the subtree's location. */
  lemma {:induction false} FoundBelow(v: Value, at: string)
    requires at != "" && Scan(v, at).Ok?
    ensures AllBelow(Scan(v, at).value, at)
    decreases v
  {
    match v {
      case Text(s) => CallsAreAt(ParseTemplate(s).value, at);
      case Mapping(entries) => EntriesFoundBelow(entries, at);
      case List(items) => ItemsFoundBelow(items, at, 0);
      case Tagged(_, inner) => FoundBelow(inner, at);
      case Plain(_) =>
    }
  }

  lemma {:induction false} EntriesFoundBelow(es: seq<Entry>, at: string)
    requires at != "" && ScanEntries(es, at).Ok?
    ensures AllBelow(ScanEntries(es, at).value, at)
    decreases es
  {
    if es != [] {
      EntryFoundBelow(es[0], at);
      EntriesFoundBelow(es[1..], at);
      AllBelowConcat(ScanEntry(es[0], at).value, ScanEntries(es[1..], at).value, at);
    }
  }

  lemma {:induction false} EntryFoundBelow(e: Entry, at: string)
    requires at != "" && ScanEntry(e, at).Ok?
    ensures AllBelow(ScanEntry(e, at).value, at)
    decreases e
  {
    var child := ChildOf(at, e.key);
    FoundBelow(e.value, child);
    assert child == at + ("." + e.key.text) && Below(at, child);
    AllBelowUp(Scan(e.value, child).value, at, child);
  }

  lemma {:induction false} ItemsFoundBelow(vs: seq<Value>, at: string, i: nat)
    requires at != "" && ScanItems(vs, at, i).Ok?
    ensures AllBelow(ScanItems(vs, at, i).value, at)
    decreases vs
  {
    if vs == [] {
      assert AllBelow([], at);
    } else {
      var child := at + "[" + Digits(i) + "]";
      hide Digits, AllBelow;
      FoundBelow(vs[0], child);
      IndexIsBelow(at, Digits(i));
      AllBelowUp(Scan(vs[0], child).value, at, child);
      ItemsFoundBelow(vs[1..], at, i + 1);
      AllBelowConcat(Scan(vs[0], child).value, ScanItems(vs[1..], at, i + 1).value, at);
    }
  }

  lemma IndexIsBelow(at: string, digits: string)
    ensures Below(at, at + "[" + digits + "]") && at + "[" + digits + "]" != ""
  {
    assert at + "[" + digits + "]" == at + ("[" + digits + "]");
  }

  lemma AllBelowUp(found: seq<Found>, top: string, mid: string)
    requires Below(top, mid) && AllBelow(found, mid)
    ensures AllBelow(found, top)
  {
    forall i | 0 <= i < |found| ensures Below(top, found[i].at) {
      BelowIsTransitive(top, mid, found[i].at);
    }
  }

  // ----- the static check -------------------------------------------------------------------

  predicate Allowed(f: Found, providers: set<string>) {
    Block(f.at) !in SECRET_FREE_BLOCKS && f.call.instance in providers
  }

  /** The distinct calls, at their first occurrence. */
  function Distinct(found: seq<Found>): (r: seq<SecretRef>)
    ensures forall c :: c in r <==> Called(found, c)
    ensures forall i, j :: 0 <= i < j < |r| ==> r[i] != r[j]
  {
    if found == [] then []
    else
      var before, last := Distinct(found[..|found| - 1]), found[|found| - 1].call;
      CalledAtEnd(found);
      if last in before then before else before + [last]
  }

  lemma CalledAtEnd(found: seq<Found>)
    requires found != []
    ensures forall c :: Called(found, c) <==> Called(found[..|found| - 1], c) || c == found[|found| - 1].call
  {
    var before, last := found[..|found| - 1], found[|found| - 1];
    assert found == before + [last];
    forall c ensures Called(found, c) <==> Called(before, c) || c == last.call {
      CalledInConcat(before, [last], c);
      CalledInOne(last.call, last.at, c);
    }
  }

  lemma DistinctSnoc(found: seq<Found>, f: Found)
    ensures Distinct(found + [f]) == if f.call in Distinct(found) then Distinct(found) else Distinct(found) + [f.call]
  {
    assert (found + [f])[..|found|] == found;
  }

  lemma NoneIsDistinct()
    ensures Distinct([]) == []
  {
  }

  /** The check accepts a mapping whose templates all parse, with every call
      outside the secret-free blocks and naming a declared instance; otherwise
      the first call in document order that breaks a rule is reported. */
  method ParseWith(raw: Value, providers: set<string>) returns (r: Result<Doc, DocError>)
    ensures r.Ok? <==> raw.Mapping? && Scan(raw, "").Ok?
                       && forall i :: 0 <= i < |Scan(raw, "").value| ==> Allowed(Scan(raw, "").value[i], providers)
    ensures r.Ok? ==> r.value == Doc(raw, providers, Distinct(Scan(raw, "").value))
    ensures r == Err(NotAMapping) <==> !raw.Mapping?
    ensures r == Err(BadTemplate) <==> raw.Mapping? && Scan(raw, "").Err?
    ensures r.Err? && (r.error.NotAllowed? || r.error.Undeclared?) ==>
              exists i :: 0 <= i < |Scan(raw, "").value| && Scan(raw, "").value[i] == Found(r.error.call, r.error.at)
                          && !Allowed(Scan(raw, "").value[i], providers)
                          && (r.error.NotAllowed? <==> Block(r.error.at) in SECRET_FREE_BLOCKS)
                          && forall j :: 0 <= j < i ==> Allowed(Scan(raw, "").value[j], providers)
  {
    hide Scan, Block, Distinct;
    if !raw.Mapping? {
      return Err(NotAMapping);
    }
    var scan := Scan(raw, "");
    if scan.Err? {
      return Err(BadTemplate);
    }
    var found := scan.value;
    assert Distinct(found[..0]) == [] by { NoneIsDistinct(); }
    var seen: set<SecretRef>, secrets: seq<SecretRef> := {}, [];
    for i := 0 to |found|
      invariant forall j :: 0 <= j < i ==> Allowed(found[j], providers)
      invariant secrets == Distinct(found[..i]) && (forall c :: c in seen <==> c in secrets)
    {
      var Found(call, at) := found[i];
      if Block(at) in SECRET_FREE_BLOCKS {
        assert found[i] == Found(call, at);
        return Err(NotAllowed(at, call));
      }
      if call.instance !in providers {
        assert found[i] == Found(call, at);
        return Err(Undeclared(at, call));
      }
      assert found[..i + 1] == found[..i] + [found[i]];
      DistinctSnoc(found[..i], found[i]);
      if call !in seen {
        seen := seen + {call};
        secrets := secrets + [call];
      }
    }
    assert found[..|found|] == found;
    r := Ok(Doc(raw, providers, secrets));
  }

  /** What the static check established. */
  predicate Checked(d: Doc) {
    && d.raw.Mapping? && Scan(d.raw, "").Ok?
    && d.secrets == Distinct(Scan(d.raw, "").value)
    && forall i :: 0 <= i < |Scan(d.raw, "").value| ==> Allowed(Scan(d.raw, "").value[i], d.providers)
  }

  // ----- resolving -------------------------------------------------------------------------

  function CheckBuiltins(d: Doc, w: World): Result<Value, Error> { Substitute(d.raw, w, Placeholder) }

  function Resolve(d: Doc, values: map<SecretRef, string>, w: World): Result<Value, Error> {
    Substitute(d.raw, w, Values(values))
  }

  /** Only a string key names a block. */
  predicate Wanted(e: Entry, blocks: seq<string>) { e.key.isString && e.key.text in blocks }

  function ResolveEntries(es: seq<Entry>, blocks: seq<string>, w: World): Result<seq<Entry>, Error> {
    if es == [] then Ok([])
    else
      match ResolveEntries(es[..|es| - 1], blocks, w)
      case Err(e) => Err(e)
      case Ok(before) =>
        var e := es[|es| - 1];
        if Wanted(e, blocks) then
          match SubstituteEntry(e, w, NoSecrets) case Err(x) => Err(x) case Ok(f) => Ok(before + [f])
        else Ok(before + [e])
  }

  /** Resolves some top-level blocks; the others are copied verbatim. */
  method ResolveSubtrees(raw: Value, blocks: seq<string>, w: World) returns (r: Result<Value, Option<Error>>)
    ensures !raw.Mapping? <==> r == Err(None)
    ensures raw.Mapping? ==> r == match ResolveEntries(raw.entries, blocks, w)
                                  case Err(e) => Err(Some(e))
                                  case Ok(es) => Ok(Mapping(es))
  {
    if !raw.Mapping? {
      return Err(None);
    }
    var out: seq<Entry> := [];
    for i := 0 to |raw.entries|
      invariant ResolveEntries(raw.entries[..i], blocks, w) == Ok(out)
    {
      assert raw.entries[..i + 1][..i] == raw.entries[..i];
      var e := raw.entries[i];
      if Wanted(e, blocks) {
        var v := Substitute(e.value, w, NoSecrets);
        if v.Err? {
          ResolveFails(raw.entries, i, blocks, w);
          return Err(Some(v.error));
        }
        out := out + [Entry(e.key, v.value)];
      } else {
        out := out + [e];
      }
    }
    assert raw.entries[..|raw.entries|] == raw.entries;
    r := Ok(Mapping(out));
  }

  lemma {:induction false} ResolveFails(es: seq<Entry>, i: nat, blocks: seq<string>, w: World)
    requires i < |es| && ResolveEntries(es[..i], blocks, w).Ok? && Wanted(es[i], blocks)
    requires SubstituteEntry(es[i], w, NoSecrets).Err?
    ensures ResolveEntries(es, blocks, w) == Err(SubstituteEntry(es[i], w, NoSecrets).error)
    decreases |es|
  {
    if i < |es| - 1 {
      assert es[..|es| - 1][..i] == es[..i];
      ResolveFails(es[..|es| - 1], i, blocks, w);
    }
  }

  // ----- the static check suffices ------------------------------------------------------------

  /** A checked document never fails to resolve on a template: with a value for
      every listed secret, only a variable or a file can be missing. And once
      those were found, it resolves exactly when every secret has a value. */
  lemma CheckSuffices(d: Doc, values: map<SecretRef, string>, w: World)
    requires Checked(d)
    ensures (forall c :: c in d.secrets ==> c in values) && Resolve(d, values, w).Err? ==> Foreign(Resolve(d, values, w).error)
    ensures CheckBuiltins(d, w).Ok? ==> (Resolve(d, values, w).Ok? <==> forall c :: c in d.secrets ==> c in values)
    ensures CheckBuiltins(d, w).Err? ==> Foreign(CheckBuiltins(d, w).error)
    ensures Resolve(d, values, w).Ok? ==> SameShape(d.raw, Resolve(d, values, w).value)
  {
    hide Scan, Substitute, SameShape, Distinct;
    ScanForesees(d.raw, "", w, Values(values));
    ScanForesees(d.raw, "", w, Placeholder);
    var found := Scan(d.raw, "").value;
    if CheckBuiltins(d, w).Ok? {
      SucceedsIffAnswered(d.raw, "", w, values);
      AnsweredIsListed(found, values);
    }
    if Resolve(d, values, w).Ok? { ShapeIsKept(d.raw, w, Values(values)); }
  }

  lemma AnsweredIsListed(found: seq<Found>, values: map<SecretRef, string>)
    ensures Answered(found, values) <==> forall c :: c in Distinct(found) ==> c in values
  {
    if forall c :: c in Distinct(found) ==> c in values {
      forall i | 0 <= i < |found| ensures found[i].call in values {
        assert Called(found, found[i].call);
      }
    }
  }

  /** The scan of a mapping's entry is part of the mapping's scan. */
  lemma {:induction false} EntryIsScanned(es: seq<Entry>, k: nat)
    requires k < |es| && ScanEntries(es, "").Ok?
    ensures ScanEntry(es[k], "").Ok?
    ensures forall f :: f in ScanEntry(es[k], "").value ==> f in ScanEntries(es, "").value
    decreases |es|
  {
    if k > 0 { EntryIsScanned(es[1..], k - 1); }
  }

  lemma FoundIsAllowed(d: Doc, f: Found)
    requires Checked(d) && f in Scan(d.raw, "").value
    ensures Allowed(f, d.providers)
  {
    hide Scan, Allowed;
  }

  /** In a checked document a secret-free block holds no call at all. */
  lemma SecretFreeBlockHasNoCall(d: Doc, k: nat)
    requires Checked(d) && k < |d.raw.entries| && d.raw.entries[k].key.text in {"pipeline", "state", "providers", "telemetry"}
    ensures ScanEntry(d.raw.entries[k], "") == Ok([])
  {
    hide Distinct, Block, Below, ScanEntries;
    var e := d.raw.entries[k];
    EntryIsScanned(d.raw.entries, k);
    SecretFreeNames(e.key.text);
    FoundBelow(e.value, e.key.text);
    var found := ScanEntry(e, "").value;
    if found != [] {
      FoundIsAllowed(d, found[0]);
      BlockOfBelow(e.key.text, found[0].at);
    }
  }

  lemma SecretFreeNames(name: string)
    ensures name in SECRET_FREE_BLOCKS <==> name in {"pipeline", "state", "providers", "telemetry"}
    ensures name in SECRET_FREE_BLOCKS ==> name != "" && Undivided(name)
  {
  }

  /** So it resolves without any secret: only a variable or a file can be
      missing, and every other block is left as it was. */
  lemma {:induction false} SecretFreeBlocksNeedNoSecrets(d: Doc, es: seq<Entry>, blocks: seq<string>, w: World)
    requires Checked(d) && es <= d.raw.entries && forall b :: b in blocks ==> b in SECRET_FREE_BLOCKS
    ensures ResolveEntries(es, blocks, w).Err? ==> Foreign(ResolveEntries(es, blocks, w).error)
    ensures ResolveEntries(es, blocks, w).Ok? ==>
              var out := ResolveEntries(es, blocks, w).value;
              && |out| == |es|
              && forall k :: 0 <= k < |es| ==>
                   && SameEntry(es[k], out[k])
                   && (if es[k].key.isString && es[k].key.text in blocks then SubstituteEntry(es[k], w, NoSecrets) == Ok(out[k])
                       else out[k] == es[k])
    decreases |es|
  {
    hide Checked, SubstituteEntry, ScanEntry, SameEntry;
    if es != [] {
      var before, e := es[..|es| - 1], es[|es| - 1];
      SecretFreeBlocksNeedNoSecrets(d, before, blocks, w);
      if Wanted(e, blocks) {
        SecretFreeNames(e.key.text);
        SecretFreeBlockHasNoCall(d, |es| - 1);
        ScanForeseesEntry(e, "", w, NoSecrets);
        assert !Called([], if SubstituteEntry(e, w, NoSecrets).Err? && !Foreign(SubstituteEntry(e, w, NoSecrets).error)
                           then SubstituteEntry(e, w, NoSecrets).error.call else SecretRef("", ""));
        if SubstituteEntry(e, w, NoSecrets).Ok? { EntryKeepsShape(e, w, NoSecrets); }
      } else {
        SameEntryAsItself(e);
      }
    }
  }

  lemma {:induction false} SameAsItself(v: Value)
    ensures SameShape(v, v)
    decreases v
  {
    match v {
      case Text(_) =>
      case Mapping(entries) => SameEntriesAsThemselves(entries);
      case List(items) => SameItemsAsThemselves(items);
      case Tagged(_, inner) => SameAsItself(inner);
      case Plain(_) =>
    }
  }

  lemma {:induction false} SameEntriesAsThemselves(es: seq<Entry>)
    ensures SameEntries(es, es)
    decreases es
  {
    if es != [] {
      SameEntryAsItself(es[0]);
      SameEntriesAsThemselves(es[1..]);
    }
  }

  lemma {:induction false} SameEntryAsItself(e: Entry)
    ensures SameEntry(e, e)
    decreases e
  {
    SameAsItself(e.value);
  }

  lemma {:induction false} SameItemsAsThemselves(vs: seq<Value>)
    ensures SameItems(vs, vs)
    decreases vs
  {
    if vs != [] {
      SameAsItself(vs[0]);
      SameItemsAsThemselves(vs[1..]);
    }
  }
}
