/**
 The tenant record store: one record per subdomain, kept in Redis under the
 key `subdomain:<sanitised name>`. Redis is a map from key to record; the
 record, its design and the design's deployment are immutable values.
 */
module Subdomains {
  import opened Js

  /** One source file produced by the generator. */
  datatype FileEntry = FileEntry(name: string, content: string)

  datatype DeployStatus = Pending | Completed | Failed

  /** A deployment of a design, as stored under `design.deployment`. */
  datatype Deployment = Deployment(
    id: string,
    webUrl: string,
    apiUrl: Option<string>,
    inspectorUrl: Option<string>,
    status: DeployStatus,
    deployedAt: int)

  /** The generated landing page of a tenant. */
  datatype Design = Design(
    chatId: string,
    content: string,
    files: Option<seq<FileEntry>>,
    webUrl: Option<string>,
    previewUrl: Option<string>,
    demo: Option<string>,
    deployment: Option<Deployment>,
    lastUpdated: int)

  /** The value stored for one tenant. */
  datatype Record = Record(emoji: string, createdAt: int, design: Option<Design>)

  /** The Redis database: key to stored record. */
  type Store = map<string, Record>

  /** Where a tenant's design stands in its lifecycle. */
  datatype Stage = NoDesign | Designed | Deploying | Live | DeployFailed

  function StageOf(data: Option<Record>): Stage {
    if data.None? || data.value.design.None? then NoDesign
    else
      match data.value.design.value.deployment
      case None => Designed
      case Some(d) =>
        match d.status
        case Pending => Deploying
        case Completed => Live
        case Failed => DeployFailed
  }

  // ---------------------------------------------------------------------------
  // Icons
  // ---------------------------------------------------------------------------

  /** How the runtime treats the pattern `/[\p{Emoji}]/u`: it supports Unicode property
      escapes and classifies each code point, or it does not and the pattern throws. */
  datatype RegexSupport = PropertyEscapes(isEmoji: char -> bool) | NoPropertyEscapes

  /** `emojiPattern.test(str)` */
  function EmojiTest(s: string, regex: RegexSupport): Attempt<bool> {
    match regex
    case NoPropertyEscapes => Threw(Error("Invalid regular expression"))
    case PropertyEscapes(isEmoji) => Returned(exists i :: 0 <= i < |s| && isEmoji(s[i]))
  }

  /** `isValidIcon(str)`: too long strings are rejected, a string with an emoji is
      accepted, and otherwise (no emoji, or the pattern threw) the length decides. Because
      a string with an emoji is never empty, only the UTF-16 length matters. */
  function IsValidIcon(s: string, regex: RegexSupport): (valid: bool)
    ensures valid <==> 1 <= Utf16Length(s) <= 10
  {
    if Utf16Length(s) > 10 then false
    else
      var test := EmojiTest(s, regex);
      if test.Returned? && test.value then true
      else 1 <= Utf16Length(s) && Utf16Length(s) <= 10
  }

  /** The icon checks one would expect: an emoji alone is accepted, the empty string and
      eleven letters are rejected, five letters are accepted (by the length fallback when the
      emoji test finds nothing). */
  lemma IconExamples(regex: RegexSupport)
    ensures IsValidIcon("\U{1F525}", regex)
    ensures !IsValidIcon("", regex)
    ensures !IsValidIcon("abcdefghijk", regex)
    ensures IsValidIcon("abcde", regex)
  {
    assert Utf16Length("\U{1F525}") == 2;
  }

  // ---------------------------------------------------------------------------
  // Keys
  // ---------------------------------------------------------------------------

  const KeyPrefix: string := "subdomain:"

  /** `toLowerCase` on one character, for the ASCII letters. */
  function LowerAscii(c: char): char {
    if 'A' <= c <= 'Z' then (c as int + 32) as char else c
  }

  /** `s.toLowerCase()` */
  function ToLower(s: string): (r: string)
    ensures |r| == |s|
    ensures forall i :: 0 <= i < |s| ==> r[i] == LowerAscii(s[i])
  {
    if s == [] then [] else [LowerAscii(s[0])] + ToLower(s[1..])
  }

  /** The characters a sanitised subdomain keeps: `[a-z0-9-]`. */
  predicate IsKeyChar(c: char) {
    ('a' <= c <= 'z') || ('0' <= c <= '9') || c == '-'
  }

  ghost predicate IsSanitised(s: string) {
    forall i :: 0 <= i < |s| ==> IsKeyChar(s[i])
  }

  /** `s.replace(/[^a-z0-9-]/g, '')` */
  function StripNonKey(s: string): (r: string)
    ensures |r| <= |s|
    ensures IsSanitised(r)
  {
    if s == [] then []
    else if IsKeyChar(s[0]) then [s[0]] + StripNonKey(s[1..])
    else StripNonKey(s[1..])
  }

  /** `subdomain.toLowerCase().replace(/[^a-z0-9-]/g, '')` */
  function Sanitise(subdomain: string): (s: string)
    ensures |s| <= |subdomain|
    ensures IsSanitised(s)
  {
    StripNonKey(ToLower(subdomain))
  }

  /** The Redis key of a tenant: `subdomain:${sanitisedSubdomain}`. */
  function KeyFor(subdomain: string): string {
    KeyPrefix + Sanitise(subdomain)
  }

  lemma {:induction false} StripNonKeyAppend(a: string, b: string)
    ensures StripNonKey(a + b) == StripNonKey(a) + StripNonKey(b)
  {
    if a == [] {
      assert a + b == b;
    } else {
      assert (a + b)[0] == a[0] && (a + b)[1..] == a[1..] + b;
      StripNonKeyAppend(a[1..], b);
    }
  }

  lemma {:induction false} ToLowerAppend(a: string, b: string)
    ensures ToLower(a + b) == ToLower(a) + ToLower(b)
  {
  }

  /** A string made only of key characters passes sanitisation unchanged. */
  lemma {:induction false} SanitiseKeepsSanitised(s: string)
    requires IsSanitised(s)
    ensures Sanitise(s) == s
  {
    assert ToLower(s) == s;
    StripNonKeyKeepsSanitised(s);
  }

  lemma {:induction false} StripNonKeyKeepsSanitised(s: string)
    requires IsSanitised(s)
    ensures StripNonKey(s) == s
  {
    if s != [] {
      StripNonKeyKeepsSanitised(s[1..]);
    }
  }

  /** Sanitising is idempotent. */
  lemma SanitiseIdempotent(s: string)
    ensures Sanitise(Sanitise(s)) == Sanitise(s)
  {
    SanitiseKeepsSanitised(Sanitise(s));
  }

  /** Two names reach the same record exactly when they sanitise to the same string. */
  lemma SameKeyIffSameSanitised(a: string, b: string)
    ensures KeyFor(a) == KeyFor(b) <==> Sanitise(a) == Sanitise(b)
  {
    if KeyFor(a) == KeyFor(b) {
      assert Sanitise(a) == KeyFor(a)[|KeyPrefix|..];
      assert Sanitise(b) == KeyFor(b)[|KeyPrefix|..];
    }
  }

  /** Names that differ only in the case of their letters reach the same record. */
  lemma KeyIgnoresCase(a: string, b: string)
    requires |a| == |b|
    requires forall i :: 0 <= i < |a| ==> LowerAscii(a[i]) == LowerAscii(b[i])
    ensures KeyFor(a) == KeyFor(b)
  {
    assert ToLower(a) == ToLower(b);
  }

  /** Inserting a character that sanitisation strips does not change the record reached. */
  lemma KeyIgnoresStripped(a: string, c: char, b: string)
    requires !IsKeyChar(LowerAscii(c))
    ensures KeyFor(a + [c] + b) == KeyFor(a + b)
  {
    ToLowerAppend(a + [c], b);
    ToLowerAppend(a, [c]);
    ToLowerAppend(a, b);
    StripNonKeyAppend(ToLower(a) + ToLower([c]), ToLower(b));
    StripNonKeyAppend(ToLower(a), ToLower([c]));
    StripNonKeyAppend(ToLower(a), ToLower(b));
    assert StripNonKey(ToLower([c])) == [];
  }

  // ---------------------------------------------------------------------------
  // Reading and writing records
  // ---------------------------------------------------------------------------

  /** `redis.get(key)`: the record stored under `key`, if any. */
  function Lookup(store: Store, key: string): Option<Record> {
    if key in store then Some(store[key]) else None
  }

  /** `getSubdomainData(subdomain)`: the record under the tenant's key, if any. */
  function GetSubdomainData(store: Store, subdomain: string): Option<Record> {
    Lookup(store, KeyFor(subdomain))
  }

  /** `data?.design?.chatId` */
  function ChatIdOf(data: Option<Record>): Option<string> {
    if data.Some? && data.value.design.Some? then Some(data.value.design.value.chatId) else None
  }

  /** What a successful write leaves behind: the new database and the record written. */
  datatype Written = Written(store: Store, data: Record)

  /** `updateSubdomainDesign(subdomain, design)`: replaces the design of an existing
      record as a whole, under the key it was read from; throws when there is no record. */
  function UpdateSubdomainDesign(store: Store, subdomain: string, design: Option<Design>): (r: Attempt<Written>)
    ensures r.Threw? <==> GetSubdomainData(store, subdomain).None?
    ensures r.Threw? ==> r.thrown == Error("Subdomain not found")
    ensures r.Returned? ==>
      var prior := store[KeyFor(subdomain)];
      && r.value.data == Record(prior.emoji, prior.createdAt, design)
      && r.value.store.Keys == store.Keys
      && GetSubdomainData(r.value.store, subdomain) == Some(r.value.data)
      && (forall k :: k in store && k != KeyFor(subdomain) ==> r.value.store[k] == store[k])
  {
    var existing := GetSubdomainData(store, subdomain);
    if existing.None? then Threw(Error("Subdomain not found"))
    else
      var updated := existing.value.(design := design);
      Returned(Written(store[KeyFor(subdomain) := updated], updated))
  }

  /** After a design write, every name with the same sanitised form reads the new
      record, and every other name reads what it read before. */
  lemma ReadAfterUpdate(store: Store, subdomain: string, design: Option<Design>, other: string)
    requires UpdateSubdomainDesign(store, subdomain, design).Returned?
    ensures var w := UpdateSubdomainDesign(store, subdomain, design).value;
      if Sanitise(other) == Sanitise(subdomain) then GetSubdomainData(w.store, other) == Some(w.data)
      else GetSubdomainData(w.store, other) == GetSubdomainData(store, other)
  {
    SameKeyIffSameSanitised(other, subdomain);
  }

  // ---------------------------------------------------------------------------
  // Listing
  // ---------------------------------------------------------------------------

  /** One entry of the tenant listing (the creation time is not modelled). */
  datatype Listing = Listing(subdomain: string, emoji: string, hasDesign: bool)

  const UnknownEmoji: string := "\U{2753}"

  /** `getAllSubdomains()`, given the keys `redis.keys('subdomain:*')` returned, in the
      order returned; `mget` yields nothing for a key that holds no record. */
  function GetAllSubdomains(store: Store, keys: seq<string>): (list: seq<Listing>)
    ensures |list| == |keys|
    ensures forall i :: 0 <= i < |keys| ==> list[i].subdomain == RemoveFirst(keys[i], KeyPrefix)
    ensures forall i :: 0 <= i < |keys| ==>
      (list[i].hasDesign <==> StageOf(Lookup(store, keys[i])) != NoDesign)
    ensures forall i :: 0 <= i < |keys| ==>
      list[i].emoji == (if keys[i] in store && store[keys[i]].emoji != "" then store[keys[i]].emoji else UnknownEmoji)
  {
    if keys == [] then []
    else
      var data := Lookup(store, keys[0]);
      var entry := Listing(
        RemoveFirst(keys[0], KeyPrefix),
        Or(if data.Some? then Some(data.value.emoji) else None, UnknownEmoji),
        data.Some? && data.value.design.Some?);
      [entry] + GetAllSubdomains(store, keys[1..])
  }

  /** A listed name leads back to its record: for a key written as `KeyFor(name)`, the
      listed subdomain is the sanitised name, and reading that subdomain finds the record
      the entry describes. */
  lemma ListedNameReadsBack(store: Store, keys: seq<string>, i: nat, name: string)
    requires i < |keys| && keys[i] == KeyFor(name)
    ensures GetAllSubdomains(store, keys)[i].subdomain == Sanitise(name)
    ensures GetSubdomainData(store, GetAllSubdomains(store, keys)[i].subdomain) == Lookup(store, keys[i])
  {
    RemoveFirstOfPrefixed(KeyPrefix, Sanitise(name));
    SanitiseIdempotent(name);
  }
}
