/** What a published field holds, told from the raw entry: paths, flags, texts and defaults. */
module Values {
  import opened Wire
  import opened Text
  import opened Json
  import opened Normalize
  import opened Mapping

  // ---------------------------------------------------------------- paths

  /** `v` is what one finds in `j` by following the keys of `path`. */
  predicate Found(j: Json, path: seq<string>, v: Json)
    decreases |path|
  {
    if path == [] then v == j else j.Obj? && path[0] in j.fields && Found(j.fields[path[0]], path[1..], v)
  }

  /** `source` names the keys of `path`, with slashes between them. */
  predicate IsPath(source: string, path: seq<string>) {
    path != [] && (forall key :: key in path ==> '/' !in key) && source == Join(path, '/')
  }

  lemma {:induction false} ResolveFinds(j: Json, source: string, path: seq<string>)
    requires IsPath(source, path)
    ensures forall v :: Resolve(j, source) == Some(v) <==> Found(j, path, v)
    decreases |path|
  {
    var (key, rest) := (path[0], path[1..]);
    if rest == [] {
      assert source == key && key == key + "";
      FindAt(key, '/', "");
      assert source[..|key|] == key;
      assert forall v :: Found(j, path, v) <==> j.Obj? && key in j.fields && Found(j.fields[key], [], v);
    } else {
      var tail := Join(rest, '/');
      assert source == key + ([ '/' ] + tail);
      FindAt(key, '/', ['/'] + tail);
      assert source[..|key|] == key && source[|key| + 1..] == tail;
      if j.Obj? && key in j.fields {
        ResolveFinds(j.fields[key], tail, rest);
      }
    }
  }

  /** Nothing is found along `path`. */
  ghost predicate Missing(j: Json, path: seq<string>) {
    forall v :: !Found(j, path, v)
  }

  // ---------------------------------------------------------------- plain values

  /** `r` is `v`, or its first 255 characters if it is a longer text. */
  predicate IsCut(v: Json, r: Json) {
    if v.Str? then r.Str? && r.s <= v.s && |r.s| == (if |v.s| < 255 then |v.s| else 255) else r == v
  }

  lemma PlainValue(entry: Fields, spec: Spec, path: seq<string>)
    requires spec.kind.Value? && IsPath(spec.source, path)
    ensures forall v :: Found(Obj(entry), path, v) ==>
              exists r :: IsCut(v, r) && FieldValue(entry, spec) == spec.convert(r)
    ensures Missing(Obj(entry), path) ==> FieldValue(entry, spec) == spec.convert(spec.kind.default)
  {
    ResolveFinds(Obj(entry), spec.source, path);
    var raw := Resolve(Obj(entry), spec.source);
    if raw.Some? {
      var r := if raw.value.Str? && |raw.value.s| > 255 then Str(raw.value.s[..255]) else raw.value;
      assert IsCut(raw.value, r) && FieldValue(entry, spec) == spec.convert(r);
    }
  }

  // ---------------------------------------------------------------- blanks

  /** The blanks of plain text are the space, the tab and the line ends; nothing that can be printed is one. */
  lemma PlainBlanks(c: char)
    ensures c in [' ', '\t', '\n', '\r'] ==> IsSpace(c)
    ensures '!' <= c <= '~' ==> !IsSpace(c)
  {}

  // ---------------------------------------------------------------- flags

  /** `word` is `token`, some letters possibly in upper case. */
  predicate SameButCase(word: string, token: string) {
    |word| == |token| && forall i :: 0 <= i < |word| ==> SameLetter(word[i], token[i])
  }

  predicate SameLetter(c: char, small: char) {
    c == small || ('a' <= small <= 'z' && c as int + 32 == small as int)
  }

  /** `s` is `token`, in any case and with any blanks around it. */
  ghost predicate Spells(s: string, token: string) {
    exists before, word, after ::
      Blank(before) && Blank(after) && SameButCase(word, token) && s == before + word + after
  }

  predicate IsLower(token: string) {
    forall i :: 0 <= i < |token| ==> 'a' <= token[i] <= 'z' || '0' <= token[i] <= '9'
  }

  lemma {:induction false} LowerIs(word: string, token: string)
    requires IsLower(token)
    ensures Lower(word) == token <==> SameButCase(word, token)
  {
    if word != "" && token != "" {
      LowerIs(word[1..], token[1..]);
      assert token == [token[0]] + token[1..];
      assert Lower(word) == token <==> Lower(word)[0] == token[0] && Lower(word)[1..] == token[1..];
      assert SameButCase(word, token) <==> SameLetter(word[0], token[0]) && SameButCase(word[1..], token[1..]);
    }
  }

  lemma TokenIsTight(word: string, token: string)
    requires IsLower(token) && SameButCase(word, token)
    ensures Tight(word)
  {}

  lemma {:induction false} StripLeftParts(s: string) returns (before: string)
    ensures Blank(before) && s == before + StripLeft(s)
  {
    if s != "" && IsSpace(s[0]) {
      before := StripLeftParts(s[1..]);
      before := [s[0]] + before;
    } else {
      before := "";
    }
  }

  lemma {:induction false} StripRightParts(s: string) returns (after: string)
    ensures Blank(after) && s == StripRight(s) + after
  {
    if s != "" && IsSpace(s[|s| - 1]) {
      after := StripRightParts(s[..|s| - 1]);
      after := after + [s[|s| - 1]];
    } else {
      after := "";
    }
  }

  /** A text spells a token exactly if it is the token once stripped and in lower case. */
  lemma SpellsIff(s: string, token: string)
    requires IsLower(token)
    ensures Lower(Strip(s)) == token <==> Spells(s, token)
  {
    if Lower(Strip(s)) == token {
      LowerIs(Strip(s), token);
      var before := StripLeftParts(s);
      var after := StripRightParts(StripLeft(s));
      assert s == before + Strip(s) + after;
    }
    if Spells(s, token) {
      var before, word, after :|
        Blank(before) && Blank(after) && SameButCase(word, token) && s == before + word + after;
      TokenIsTight(word, token);
      StripPadded(before, word, after);
      LowerIs(word, token);
    }
  }

  ghost predicate SaysYes(s: string) {
    Spells(s, "on") || Spells(s, "yes") || Spells(s, "up") || Spells(s, "true") || Spells(s, "1")
  }

  ghost predicate SaysNo(s: string) {
    Spells(s, "off") || Spells(s, "no") || Spells(s, "down") || Spells(s, "false") || Spells(s, "0")
  }

  /** `v` reads as the boolean `b`: it is that boolean, or spells one of its five tokens. */
  ghost predicate ReadsAs(v: Json, b: bool) {
    v == Bool(b) || (v.Str? && if b then SaysYes(v.s) else SaysNo(v.s))
  }

  lemma CoerceReads(v: Json, default: bool)
    ensures ReadsAs(v, true) ==> CoerceBool(v, default)
    ensures ReadsAs(v, false) ==> !CoerceBool(v, default)
    ensures !ReadsAs(v, true) && !ReadsAs(v, false) ==> CoerceBool(v, default) == default
  {
    if v.Str? {
      SaysYesIff(v.s);
      SaysNoIff(v.s);
      TokensApart();
    }
  }

  lemma SaysYesIff(s: string)
    ensures SaysYes(s) <==> Lower(Strip(s)) in ["on", "yes", "up", "true", "1"]
  {
    SpellsIff(s, "on");
    SpellsIff(s, "yes");
    SpellsIff(s, "up");
    SpellsIff(s, "true");
    SpellsIff(s, "1");
  }

  lemma SaysNoIff(s: string)
    ensures SaysNo(s) <==> Lower(Strip(s)) in ["off", "no", "down", "false", "0"]
  {
    SpellsIff(s, "off");
    SpellsIff(s, "no");
    SpellsIff(s, "down");
    SpellsIff(s, "false");
    SpellsIff(s, "0");
  }

  /** No token of the one kind is one of the other: they differ in length or in their first letter. */
  lemma TokensApart()
    ensures forall token :: token in ["on", "yes", "up", "true", "1"] ==> token !in ["off", "no", "down", "false", "0"]
  {
    forall token | token in ["on", "yes", "up", "true", "1"]
      ensures token !in ["off", "no", "down", "false", "0"]
    {
      assert token[0] in ['o', 'y', 'u', 't', '1'] && (token[0] == 'o' ==> |token| == 2);
    }
  }

  /** What a flag is published as. */
  ghost predicate FlagFrom(entry: Fields, path: seq<string>, fallback: bool, reverse: bool, b: bool) {
    && (Missing(Obj(entry), path) ==> b == (fallback != reverse))
    && forall v :: Found(Obj(entry), path, v) ==>
         && (ReadsAs(v, true) ==> b == !reverse)
         && (ReadsAs(v, false) ==> b == reverse)
         && (!ReadsAs(v, true) && !ReadsAs(v, false) ==> b == fallback)
  }

  lemma FlagValue(entry: Fields, spec: Spec, path: seq<string>) returns (b: bool)
    requires spec.kind.Flag? && IsPath(spec.source, path)
    ensures FlagFrom(entry, path, spec.kind.fallback, spec.kind.reverse, b)
    ensures FieldValue(entry, spec) == spec.convert(Bool(b))
  {
    ResolveFinds(Obj(entry), spec.source, path);
    var raw := Resolve(Obj(entry), spec.source);
    var default := if spec.kind.reverse then !spec.kind.fallback else spec.kind.fallback;
    if raw.None? {
      b := default;
    } else {
      CoerceReads(raw.value, default);
      b := if spec.kind.reverse then !CoerceBool(raw.value, default) else CoerceBool(raw.value, default);
    }
  }

  // ---------------------------------------------------------------- which entry

  /** `e` has the uid `k` under `key`. */
  predicate HasUid(e: Json, key: string, k: Key) {
    e.Obj? && key in e.fields && e.fields[key] != Null && KeyOf(e.fields[key]) == Some(k)
  }

  /** Two readings are one key exactly if Python finds them equal, other than lists and dictionaries,
      which are none. */
  lemma KeysAgree(a: Json, b: Json)
    ensures KeyOf(a).None? <==> a.List? || a.Obj?
    ensures a.Str? && KeyOf(b).Some? ==> (KeyOf(a) == KeyOf(b) <==> a == b)
    ensures a.Int? && b.Int? ==> (KeyOf(a) == KeyOf(b) <==> a.n == b.n)
    ensures a.Int? && b.Float? ==> (KeyOf(a) == KeyOf(b) <==> a.n as real == b.r)
    ensures a.Int? && b.Bool? ==> (KeyOf(a) == KeyOf(b) <==> a.n == if b.b then 1 else 0)
    ensures a.Null? && KeyOf(b).Some? ==> (KeyOf(a) == KeyOf(b) <==> b.Null?)
  {
    if a.Int? && b.Int? {
      assert a.n as real == b.n as real <==> a.n == b.n;
    }
  }

  /** An entry is known by its key field or, where it has none, by the secondary one. */
  lemma UidIs(e: Json, cfg: Config, k: Key)
    ensures Uid(e, cfg) == Some(k) <==>
              HasUid(e, cfg.key, k)
              || (e.Obj? && cfg.key !in e.fields && cfg.secondary.Some? && HasUid(e, cfg.secondary.value, k))
  {}

  /** Filters by text: `only` demands the text in its field, `skip` refuses it; an empty `skip` text also
      refuses an entry without the field. */
  lemma TextFilters(e: Fields, cfg: Config)
    requires forall f :: f in cfg.only || f in cfg.skip ==> f.1.Str?
    ensures Skipped(Obj(e), cfg) <==>
              || (exists i :: 0 <= i < |cfg.only| && !(cfg.only[i].0 in e && e[cfg.only[i].0] == cfg.only[i].1))
              || (exists i :: 0 <= i < |cfg.skip| && if cfg.skip[i].0 in e then e[cfg.skip[i].0] == cfg.skip[i].1
                                                     else cfg.skip[i].1 == Str(""))
  {
    forall i | 0 <= i < |cfg.only|
      ensures Equal(Get(e, cfg.only[i].0), cfg.only[i].1) <==> cfg.only[i].0 in e && e[cfg.only[i].0] == cfg.only[i].1
    {
      assert cfg.only[i] in cfg.only;
    }
    forall i | 0 <= i < |cfg.skip|
      ensures SkipsBy(e, cfg.skip[i]) <==> if cfg.skip[i].0 in e then e[cfg.skip[i].0] == cfg.skip[i].1
                                           else cfg.skip[i].1 == Str("")
    {
      assert cfg.skip[i] in cfg.skip;
    }
  }

  /** Some entry of a response can be known by `key`: it has it, and neither null nor a list nor a
      dictionary there. */
  predicate IsKeyed(e: Json, key: string) {
    e.Obj? && key in e.fields && !e.fields[key].Null? && !e.fields[key].List? && !e.fields[key].Obj?
  }

  /** What counts as an answer: an empty list, a list with at least one entry that can be known by `key`,
      or one such entry alone. */
  predicate IsAnswer(source: Json, key: string) {
    || IsKeyed(source, key)
    || (source.List? && (source.items == [] || exists n :: 0 <= n < |source.items| && IsKeyed(source.items[n], key)))
  }

  lemma UsableIff(source: Json, cfg: Config)
    requires cfg.secondary.None?
    ensures Usable(source, cfg) <==> IsAnswer(source, cfg.key)
  {
    if source.List? {
      forall n | 0 <= n < |source.items|
        ensures Uid(source.items[n], cfg).Some? <==> IsKeyed(source.items[n], cfg.key)
      {}
    } else {
      assert Entries(source).Some? ==> Entries(source).value[0] == source;
    }
  }

  /** Some entry of a response has the uid `k`. */
  predicate HasEntry(source: Json, key: string, k: Key) {
    HasUid(source, key, k) || (source.List? && exists n :: 0 <= n < |source.items| && HasUid(source.items[n], key, k))
  }

  lemma UidsAreEntries(source: Json, cfg: Config, k: Key)
    requires cfg.secondary.None?
    ensures k in Uids(source, cfg) <==> HasEntry(source, cfg.key, k)
  {
    if Entries(source).Some? {
      var entries := Entries(source).value;
      SeenIsPresent(entries, cfg, k);
      forall n | 0 <= n < |entries|
        ensures Uid(entries[n], cfg) == Some(k) <==> HasUid(entries[n], cfg.key, k)
      {
        UidIs(entries[n], cfg, k);
      }
      assert source.Obj? ==> entries[0] == source;
    }
  }

  // ---------------------------------------------------------------- published fields

  /** `items[n]` is the last entry that is known as `k`, and nothing is filtered. */
  predicate Makes(items: seq<Json>, n: nat, cfg: Config, k: Key) {
    && cfg.only == [] && cfg.skip == [] && cfg.secondary.None?
    && n < |items| && HasUid(items[n], cfg.key, k)
    && forall m :: n < m < |items| ==> !HasUid(items[m], cfg.key, k)
  }

  lemma {:induction false} MakesIsLast(items: seq<Json>, n: nat, cfg: Config, k: Key)
    requires Makes(items, n, cfg, k)
    ensures Last(items, cfg, k) == Some(items[n].fields)
  {
    var m := |items| - 1;
    UidIs(items[m], cfg, k);
    if n < m {
      MakesIsLast(items[..m], n, cfg, k);
    }
  }

  /** The last of the specs for a name is the one that counts. */
  predicate Gives(vals: seq<Spec>, i: nat) {
    i < |vals| && forall j :: i < j < |vals| ==> vals[j].name != vals[i].name
  }

  lemma PublishedField(rows: Rows, items: seq<Json>, n: nat, cfg: Config, k: Key, i: nat)
    requires Makes(items, n, cfg, k) && Gives(cfg.vals, i)
    ensures var p := Parsed(rows, List(items), cfg);
            && k in p && p[k].Rec? && cfg.vals[i].name in p[k].fields
            && p[k].fields[cfg.vals[i].name] == FieldValue(items[n].fields, cfg.vals[i])
  {
    MakesIsLast(items, n, cfg, k);
    FieldOrigin(rows, items, cfg, k, cfg.vals[i].name);
    MappedByLastSpec(items[n].fields, cfg.vals, i);
  }

  /** A flag is published as the boolean at its source in the last entry of its record, reversed if the
      spec says so: a JSON boolean as it is, a text if it is one of ten tokens, in any case and with any
      blanks. With no source it is the reversed default; with anything else there, the default. */
  lemma PublishedFlag(rows: Rows, items: seq<Json>, n: nat, cfg: Config, k: Key, i: nat, path: seq<string>)
    requires Makes(items, n, cfg, k) && Gives(cfg.vals, i) && cfg.vals[i].kind.Flag? && IsPath(cfg.vals[i].source, path)
    ensures var (p, spec) := (Parsed(rows, List(items), cfg), cfg.vals[i]);
            && k in p && p[k].Rec? && spec.name in p[k].fields
            && exists b :: FlagFrom(items[n].fields, path, spec.kind.fallback, spec.kind.reverse, b)
                           && p[k].fields[spec.name] == spec.convert(Bool(b))
  {
    PublishedField(rows, items, n, cfg, k, i);
    var b := FlagValue(items[n].fields, cfg.vals[i], path);
  }

  /** A plain value is published as what is at its source in that entry, nested or not, a text cut to its
      first 255 characters; with nothing there, as its default. */
  lemma PublishedValue(rows: Rows, items: seq<Json>, n: nat, cfg: Config, k: Key, i: nat, path: seq<string>)
    requires Makes(items, n, cfg, k) && Gives(cfg.vals, i)
    requires cfg.vals[i].kind.Value? && IsPath(cfg.vals[i].source, path)
    ensures var (p, spec) := (Parsed(rows, List(items), cfg), cfg.vals[i]);
            && k in p && p[k].Rec? && spec.name in p[k].fields
            && (Missing(Obj(items[n].fields), path) ==> p[k].fields[spec.name] == spec.convert(spec.kind.default))
            && forall v :: Found(Obj(items[n].fields), path, v) ==>
                 exists r :: IsCut(v, r) && p[k].fields[spec.name] == spec.convert(r)
  {
    PublishedField(rows, items, n, cfg, k, i);
    PlainValue(items[n].fields, cfg.vals[i], path);
  }

  lemma {:induction false} DefaultsByFirstSpec(vals: seq<Spec>, i: nat)
    requires i < |vals| && forall j :: 0 <= j < i ==> vals[j].name != vals[i].name
    ensures vals[i].name in Defaults(vals) && Defaults(vals)[vals[i].name] == SpecDefault(vals[i])
  {
    if i < |vals| - 1 {
      DefaultsByFirstSpec(vals[..|vals| - 1], i);
    } else {
      NotEnsured(vals[..i], vals[i].name);
    }
  }

  lemma {:induction false} NotEnsured(vals: seq<Spec>, name: string)
    requires forall i :: 0 <= i < |vals| ==> vals[i].name != name
    ensures name !in Defaults(vals)
  {
    if vals != [] {
      NotEnsured(vals[..|vals| - 1], name);
    }
  }

  /** A field that is only ensured keeps what the record had, and otherwise takes its default: a flag's is
      reversed if the spec says so. */
  lemma PublishedDefault(rows: Rows, items: seq<Json>, n: nat, cfg: Config, k: Key, i: nat)
    requires Makes(items, n, cfg, k) && i < |cfg.ensureVals|
    requires forall j :: 0 <= j < i ==> cfg.ensureVals[j].name != cfg.ensureVals[i].name
    requires forall j :: 0 <= j < |cfg.vals| ==> cfg.vals[j].name != cfg.ensureVals[i].name
    ensures var (p, spec) := (Parsed(rows, List(items), cfg), cfg.ensureVals[i]);
            && k in p && p[k].Rec? && spec.name in p[k].fields
            && p[k].fields[spec.name] == if k in rows && rows[k].Rec? && spec.name in rows[k].fields
                                         then rows[k].fields[spec.name]
                                         else if spec.kind.Value? then spec.kind.default
                                         else Bool(spec.kind.fallback != spec.kind.reverse)
  {
    MakesIsLast(items, n, cfg, k);
    DefaultsByFirstSpec(cfg.ensureVals, i);
    FieldOrigin(rows, items, cfg, k, cfg.ensureVals[i].name);
  }
}
