// The desired state: project slugs, and what a configuration file must
// satisfy to be accepted.
module Config {
  import opened Backoff
  import opened Readiness
  import opened Failover
  import opened Inflight

  // ----------------------------------------------------------- project slugs

  const MAX_PROJECT_NAME := 40

  predicate Alnum(c: char) {
    'a' <= c <= 'z' || '0' <= c <= '9'
  }

  // The slug under construction: letters and digits as they are, any run of
  // other characters a single dash, none at the front.
  function Body(s: string): string {
    if s == "" then ""
    else
      var out, c := Body(s[..|s| - 1]), s[|s| - 1];
      if Alnum(c) then out + [c]
      else if out != "" && out[|out| - 1] != '-' then out + "-"
      else out
  }

  function TrimRight(s: string): (t: string)
    ensures |t| <= |s| && t == s[..|t|]
    ensures t == "" || t[|t| - 1] != '-'
    ensures forall i | |t| <= i < |s| :: s[i] == '-'
  {
    if s == "" || s[|s| - 1] != '-' then s else TrimRight(s[..|s| - 1])
  }

  // `lower` is the lower-casing of the whole name.
  function Slug(name: string, lower: string -> string): string {
    var slug := TrimRight(Body(lower(name)));
    var cut := if |slug| > MAX_PROJECT_NAME then TrimRight(slug[..MAX_PROJECT_NAME]) else slug;
    if cut == "" then "relay" else cut
  }

  method ProjectName(name: string, lower: string -> string) returns (slug: string)
    ensures slug == Slug(name, lower)
  {
    var b, prevDash := "", true;
    var text := lower(name);
    for n := 0 to |text|
      invariant b == Body(text[..n])
      invariant prevDash <==> b == "" || b[|b| - 1] == '-'
    {
      var c := text[n];
      assert text[..n + 1][..n] == text[..n];
      if Alnum(c) {
        b := b + [c];
        prevDash := false;
      } else if !prevDash {
        b := b + "-";
        prevDash := true;
      }
    }
    assert text[..|text|] == text;
    slug := TrimRight(b);
    if |slug| > MAX_PROJECT_NAME {
      slug := TrimRight(slug[..MAX_PROJECT_NAME]);
    }
    if slug == "" {
      slug := "relay";
    }
  }

  // Lowercase letters, digits and single inner dashes.
  predicate Dashed(s: string) {
    && (forall i | 0 <= i < |s| :: Alnum(s[i]) || s[i] == '-')
    && (s != "" ==> s[0] != '-')
    && (forall i | 0 < i < |s| :: s[i] == '-' ==> s[i - 1] != '-')
  }

  // What every platform accepts as a project name.
  predicate IsSlug(s: string) {
    1 <= |s| <= MAX_PROJECT_NAME && Dashed(s) && s[|s| - 1] != '-'
  }

  lemma {:induction false} BodyDashed(s: string)
    ensures Dashed(Body(s))
  {
    if s != "" {
      BodyDashed(s[..|s| - 1]);
    }
  }

  lemma {:induction false} BodyFixed(s: string)
    requires Dashed(s)
    ensures Body(s) == s
  {
    hide Body;
    if s == "" {
      NoBody();
    } else {
      var front, c := s[..|s| - 1], s[|s| - 1];
      assert s == front + [c];
      assert forall i | 0 <= i < |front| :: front[i] == s[i];
      BodyFixed(front);
      BodyNext(front, c);
      assert c == '-' ==> "-" == [c];
    }
  }

  lemma NoBody()
    ensures Body("") == ""
  {
  }

  lemma BodyNext(front: string, c: char)
    ensures Body(front + [c]) == if Alnum(c) then Body(front) + [c]
                                 else if Body(front) != "" && Body(front)[|Body(front)| - 1] != '-' then
                                   Body(front) + "-"
                                 else Body(front)
  {
    assert (front + [c])[..|front|] == front;
  }

  // Every relay name gets a slug.
  lemma SlugIsSlug(name: string, lower: string -> string)
    ensures IsSlug(Slug(name, lower))
  {
    hide TrimRight, Body, Dashed;
    var slug := TrimRight(Body(lower(name)));
    BodyDashed(lower(name));
    TrimDashed(Body(lower(name)), |Body(lower(name))|);
    if |slug| > MAX_PROJECT_NAME {
      TrimDashed(slug, MAX_PROJECT_NAME);
    }
    RelayDashed();
  }

  // Cut and trimmed, what was dashed stays so and ends in no dash.
  lemma TrimDashed(s: string, n: nat)
    requires Dashed(s) && n <= |s|
    ensures var t := TrimRight(s[..n]); Dashed(t) && |t| <= n && (t == "" || t[|t| - 1] != '-')
    ensures s[..|s|] == s
  {
    var t := TrimRight(s[..n]);
    assert t == s[..|t|];
  }

  lemma RelayDashed()
    ensures Dashed("relay")
  {
  }

  // The maximal runs of letters and digits.
  function Words(s: string): (words: seq<string>)
    ensures s != "" && Alnum(s[|s| - 1]) ==> words != []
    ensures forall i | 0 <= i < |words| :: words[i] != "" && Alnum(words[i][|words[i]| - 1])
  {
    if s == "" then []
    else
      var front, c := s[..|s| - 1], s[|s| - 1];
      var words := Words(front);
      if !Alnum(c) then words
      else if front != "" && Alnum(front[|front| - 1]) then words[..|words| - 1] + [words[|words| - 1] + [c]]
      else words + [[c]]
  }

  function Joined(words: seq<string>): string {
    if words == [] then ""
    else if |words| == 1 then words[0]
    else Joined(words[..|words| - 1]) + "-" + words[|words| - 1]
  }

  lemma JoinedNext(front: seq<string>, last: string)
    ensures Joined(front + [last]) == if front == [] then last else Joined(front) + "-" + last
  {
    assert (front + [last])[..|front|] == front;
  }

  lemma JoinedMore(front: seq<string>, last: string, c: char)
    ensures Joined(front + [last + [c]]) == Joined(front + [last]) + [c]
  {
    hide Joined;
    JoinedNext(front, last);
    JoinedNext(front, last + [c]);
    Associates(Joined(front) + "-", last, [c]);
  }

  lemma Associates(a: string, b: string, c: string)
    ensures a + (b + c) == a + b + c
  {
  }

  lemma JoinedEnds(words: seq<string>)
    requires forall i | 0 <= i < |words| :: words[i] != "" && Alnum(words[i][|words[i]| - 1])
    ensures words != [] ==> Joined(words) != "" && Alnum(Joined(words)[|Joined(words)| - 1])
  {
  }

  // Whether a last word is over.
  predicate Open(s: string) {
    s != "" && !Alnum(s[|s| - 1]) && Words(s) != []
  }

  function Dash(open: bool): string {
    if open then "-" else ""
  }

  lemma WordsNext(front: string, c: char)
    ensures var words := Words(front);
            && (front != "" && Alnum(front[|front| - 1]) ==> words != [])
            && Words(front + [c]) ==
                 if !Alnum(c) then words
                 else if front != "" && Alnum(front[|front| - 1]) then
                   words[..|words| - 1] + [words[|words| - 1] + [c]]
                 else words + [[c]]
  {
    assert (front + [c])[..|front|] == front;
  }

  // The text under construction is the words with single dashes between, and
  // one behind when the last word is over.
  lemma {:induction false} BodyWords(s: string)
    ensures Body(s) == Joined(Words(s)) + Dash(Open(s))
  {
    hide Joined, Words, Body;
    if s == "" {
      NoWords();
      NoBody();
    } else {
      var front, c := s[..|s| - 1], s[|s| - 1];
      assert s == front + [c];
      BodyWords(front);
      NoWords();
      assert Joined(Words(front)) + "" == Joined(Words(front));
      assert Joined(Words(s)) + "" == Joined(Words(s));
      if !Alnum(c) {
        WordOver(front, c);
      } else if front != "" && Alnum(front[|front| - 1]) {
        LastWord(front, c);
      } else {
        NextWord(front, c);
      }
    }
  }

  // A separator.
  lemma WordOver(front: string, c: char)
    requires !Alnum(c) && Body(front) == Joined(Words(front)) + Dash(Open(front))
    ensures Words(front + [c]) == Words(front)
    ensures Body(front + [c]) == Joined(Words(front)) + Dash(Words(front) != [])
  {
    hide Joined, Words, Body;
    BodyNext(front, c);
    WordsNext(front, c);
    WordsEnd(front);
    NoWords();
    JoinedEnds(Words(front));
    assert Joined(Words(front)) + "" == Joined(Words(front));
  }

  // The word goes on.
  lemma LongerWord(front: string, c: char, start: seq<string>, last: string)
    requires Alnum(c) && front != "" && Alnum(front[|front| - 1])
    requires Words(front) == start + [last] && Body(front) == Joined(start + [last])
    ensures Body(front + [c]) == Joined(Words(front + [c]))
  {
    hide Joined, Words, Body;
    BodyNext(front, c);
    WordsGrow(front, c, start, last);
    JoinedMore(start, last, c);
  }

  lemma LastWord(front: string, c: char)
    requires Alnum(c) && front != "" && Alnum(front[|front| - 1]) && Body(front) == Joined(Words(front))
    ensures Body(front + [c]) == Joined(Words(front + [c]))
  {
    hide Joined, Words, Body;
    WordThere(front);
    var words := Words(front);
    SplitLast(words);
    LongerWord(front, c, words[..|words| - 1], words[|words| - 1]);
  }

  lemma WordThere(s: string)
    ensures s != "" && Alnum(s[|s| - 1]) ==> Words(s) != []
  {
  }

  lemma SplitLast(words: seq<string>)
    requires words != []
    ensures words == words[..|words| - 1] + [words[|words| - 1]]
  {
  }

  lemma WordsGrow(front: string, c: char, start: seq<string>, last: string)
    requires Alnum(c) && front != "" && Alnum(front[|front| - 1]) && Words(front) == start + [last]
    ensures Words(front + [c]) == start + [last + [c]]
  {
    hide Words;
    WordsNext(front, c);
    assert (start + [last])[..|start|] == start;
  }

  // A new word begins.
  lemma NextWord(front: string, c: char)
    requires Alnum(c) && (front == "" || !Alnum(front[|front| - 1]))
    requires Body(front) == if Words(front) == [] then "" else Joined(Words(front)) + "-"
    ensures Body(front + [c]) == Joined(Words(front + [c]))
  {
    hide Joined, Words, Body;
    BodyNext(front, c);
    WordsNext(front, c);
    JoinedNext(Words(front), [c]);
    assert "" + [c] == [c];
  }

  lemma NoWords()
    ensures Joined([]) == "" && Words("") == []
  {
  }

  lemma Trimmed(s: string, tail: string)
    requires s == "" || s[|s| - 1] != '-'
    requires tail == "" || (tail == "-" && s != "")
    ensures TrimRight(s + tail) == s
  {
    if tail == "-" {
      assert (s + tail)[..|s|] == s;
    } else {
      assert s + tail == s;
    }
  }

  // A slug is the name's words, lower-cased, joined by dashes; cut at 40
  // characters, without a dash at the cut; and never empty.
  lemma SlugWords(name: string, lower: string -> string)
    ensures var text := Joined(Words(lower(name)));
            Slug(name, lower) == if text == "" then "relay"
                                 else if |text| <= 40 then text
                                 else TrimRight(text[..40])
  {
    hide Joined, Words, Body, TrimRight;
    var s := lower(name);
    BodyWords(s);
    WordsEnd(s);
    JoinedEnds(Words(s));
    NoWords();
    BodyDashed(s);
    CutKeepsFirst(Body(s));
    Trimmed(Joined(Words(s)), Dash(Open(s)));
  }

  lemma CutKeepsFirst(s: string)
    requires Dashed(s)
    ensures |TrimRight(s)| > 40 ==> TrimRight(TrimRight(s)[..40]) != ""
  {
    var cut := TrimRight(s);
    assert |cut| > 40 ==> cut[..40][0] == s[0] != '-';
  }

  lemma WordsEnd(s: string)
    ensures forall i | 0 <= i < |Words(s)| :: Words(s)[i] != "" && Alnum(Words(s)[i][|Words(s)[i]| - 1])
  {
  }

  // Lower-casing leaves text that is lower case already alone.
  ghost predicate LeavesLowerCase(lower: string -> string) {
    forall s: string :: Dashed(s) ==> lower(s) == s
  }

  lemma SlugFixed(s: string, lower: string -> string)
    requires LeavesLowerCase(lower) && IsSlug(s)
    ensures Slug(s, lower) == s
  {
    BodyFixed(s);
  }

  // The slugs are exactly the fixed points, so slugging twice is slugging once.
  lemma SlugExact(s: string, lower: string -> string)
    requires LeavesLowerCase(lower)
    ensures Slug(s, lower) == s <==> IsSlug(s)
    ensures Slug(Slug(s, lower), lower) == Slug(s, lower)
  {
    SlugIsSlug(s, lower);
    SlugFixed(Slug(s, lower), lower);
    if IsSlug(s) {
      SlugFixed(s, lower);
    }
  }

  // ------------------------------------------------------------- the relays

  // A relay entry as its own checks leave it; None when they reject it.
  datatype RelayEntry = RelayEntry(name: string, provider: string)

  datatype Complaint = Malformed | DuplicateName(other: nat) | SameProject(other: nat)

  datatype Parsed = Accepted(relays: seq<RelayEntry>) | Rejected(index: nat, why: Complaint)

  const PROVIDERS: set<string> := {"vercel", "cloudflare", "deno"}

  function Project(r: RelayEntry, lower: string -> string): Key {
    Key(r.provider, Slug(r.name, lower))
  }

  // Every entry passed its checks and names a known provider.
  predicate Wellformed(entries: seq<Option<RelayEntry>>) {
    forall i | 0 <= i < |entries| :: entries[i].Some?
  }

  predicate Known(entries: seq<Option<RelayEntry>>) {
    forall i | 0 <= i < |entries| :: entries[i].Some? ==> entries[i].value.provider in PROVIDERS
  }

  // Names are distinct, and so are the platform deployments they stand for.
  predicate Distinct(entries: seq<Option<RelayEntry>>, lower: string -> string) {
    && (forall i, j | 0 <= i < j < |entries| && entries[i].Some? && entries[j].Some? ::
          entries[i].value.name != entries[j].value.name)
    && (forall i, j | 0 <= i < j < |entries| && entries[i].Some? && entries[j].Some? ::
          Project(entries[i].value, lower) != Project(entries[j].value, lower))
  }

  predicate Acceptable(entries: seq<Option<RelayEntry>>, lower: string -> string) {
    Wellformed(entries) && Distinct(entries, lower)
  }

  lemma ProvidersSlashless(p: string)
    requires p in PROVIDERS
    ensures Slashless(p)
  {
    assert p == "vercel" || p == "cloudflare" || p == "deno";
  }

  // One entry more, behind acceptable ones.
  predicate Fits(before: seq<RelayEntry>, entry: Option<RelayEntry>, lower: string -> string) {
    && entry.Some?
    && (forall j | 0 <= j < |before| :: before[j].name != entry.value.name)
    && (forall j | 0 <= j < |before| :: Project(before[j], lower) != Project(entry.value, lower))
  }

  predicate Reads(entries: seq<Option<RelayEntry>>, relays: seq<RelayEntry>) {
    |relays| == |entries| && forall i | 0 <= i < |entries| :: entries[i] == Some(relays[i])
  }

  lemma FitsNext(entries: seq<Option<RelayEntry>>, relays: seq<RelayEntry>, i: nat, lower: string -> string)
    requires i < |entries| && Reads(entries[..i], relays) && Acceptable(entries[..i], lower)
    ensures Acceptable(entries[..i + 1], lower) <==> Fits(relays, entries[i], lower)
    ensures entries[i].Some? ==> Reads(entries[..i + 1], relays + [entries[i].value])
    ensures !Fits(relays, entries[i], lower) ==> !Acceptable(entries, lower)
  {
    hide Project;
    var now, next := entries[..i], entries[..i + 1];
    assert forall j | 0 <= j < i :: next[j] == entries[j] == Some(relays[j]) && now[j] == entries[j];
    assert next[i] == entries[i];
    if !Fits(relays, entries[i], lower) && entries[i].Some? {
      var j :| 0 <= j < i && (relays[j].name == entries[i].value.name
                              || Project(relays[j], lower) == Project(entries[i].value, lower));
      assert entries[j] == Some(relays[j]);
    }
  }

  function ProjectKey(r: RelayEntry, lower: string -> string): string {
    IdentityKey(Project(r, lower))
  }

  // Two relays share a project key exactly when they share a project.
  lemma SameKey(a: RelayEntry, b: RelayEntry, lower: string -> string)
    requires a.provider in PROVIDERS && b.provider in PROVIDERS
    ensures ProjectKey(a, lower) == ProjectKey(b, lower) <==> Project(a, lower) == Project(b, lower)
  {
    hide Slug;
    ProvidersSlashless(a.provider);
    ProvidersSlashless(b.provider);
    IdentityKeyInjective(Project(a, lower), Project(b, lower));
  }

  // What the two maps remember of the relays accepted so far.
  predicate SeenNames(seen: map<string, nat>, relays: seq<RelayEntry>) {
    && (forall j | 0 <= j < |relays| :: relays[j].name in seen)
    && (forall name | name in seen :: seen[name] < |relays| && relays[seen[name]].name == name)
  }

  predicate SeenProjects(slugs: map<string, nat>, relays: seq<RelayEntry>, lower: string -> string) {
    && (forall j | 0 <= j < |relays| :: ProjectKey(relays[j], lower) in slugs)
    && (forall key | key in slugs :: slugs[key] < |relays| && ProjectKey(relays[slugs[key]], lower) == key)
  }

  lemma NextName(seen: map<string, nat>, relays: seq<RelayEntry>, relay: RelayEntry)
    requires SeenNames(seen, relays) && relay.name !in seen
    ensures SeenNames(seen[relay.name := |relays|], relays + [relay])
  {
  }

  lemma NextProject(slugs: map<string, nat>, relays: seq<RelayEntry>, relay: RelayEntry, lower: string -> string)
    requires SeenProjects(slugs, relays, lower) && ProjectKey(relay, lower) !in slugs
    ensures SeenProjects(slugs[ProjectKey(relay, lower) := |relays|], relays + [relay], lower)
  {
    hide ProjectKey;
  }

  lemma FitsByMaps(seen: map<string, nat>, slugs: map<string, nat>, relays: seq<RelayEntry>, relay: RelayEntry,
                   lower: string -> string)
    requires SeenNames(seen, relays) && SeenProjects(slugs, relays, lower)
    requires relay.provider in PROVIDERS && forall j | 0 <= j < |relays| :: relays[j].provider in PROVIDERS
    ensures Fits(relays, Some(relay), lower) <==> relay.name !in seen && ProjectKey(relay, lower) !in slugs
  {
    hide Project, ProjectKey;
    forall j | 0 <= j < |relays|
      ensures ProjectKey(relays[j], lower) == ProjectKey(relay, lower)
         <==> Project(relays[j], lower) == Project(relay, lower)
    {
      SameKey(relays[j], relay, lower);
    }
  }

  // The complaint about entry i is true, and an index in it names an earlier
  // entry that really clashes.
  predicate Justified(entries: seq<Option<RelayEntry>>, i: nat, why: Complaint, lower: string -> string) {
    && i < |entries|
    && match why
       case Malformed => entries[i].None?
       case DuplicateName(j) =>
         j < i && entries[i].Some? && entries[j].Some? && entries[j].value.name == entries[i].value.name
       case SameProject(j) =>
         j < i && entries[i].Some? && entries[j].Some?
         && Project(entries[j].value, lower) == Project(entries[i].value, lower)
  }

  lemma NameClashes(entries: seq<Option<RelayEntry>>, relays: seq<RelayEntry>, i: nat, j: nat, lower: string -> string)
    requires i < |entries| && entries[i].Some? && Reads(entries[..i], relays)
    requires j < |relays| && relays[j].name == entries[i].value.name
    ensures Justified(entries, i, DuplicateName(j), lower)
  {
    hide Project;
    assert entries[..i][j] == entries[j];
  }

  lemma ProjectClashes(
    entries: seq<Option<RelayEntry>>, relays: seq<RelayEntry>, i: nat, j: nat, lower: string -> string)
    requires i < |entries| && entries[i].Some? && Reads(entries[..i], relays)
    requires j < |relays| && Project(relays[j], lower) == Project(entries[i].value, lower)
    ensures Justified(entries, i, SameProject(j), lower)
  {
    hide Project;
    assert entries[..i][j] == entries[j];
  }

  // What a hit in either map stands for.
  lemma Clashes(entries: seq<Option<RelayEntry>>, relays: seq<RelayEntry>, i: nat, seen: map<string, nat>,
                slugs: map<string, nat>, lower: string -> string)
    requires i < |entries| && entries[i].Some? && Reads(entries[..i], relays)
    requires SeenNames(seen, relays) && SeenProjects(slugs, relays, lower)
    requires entries[i].value.provider in PROVIDERS && forall j | 0 <= j < |relays| :: relays[j].provider in PROVIDERS
    ensures var relay := entries[i].value;
            && (relay.name in seen ==> Justified(entries, i, DuplicateName(seen[relay.name]), lower))
            && (ProjectKey(relay, lower) in slugs ==>
                  Justified(entries, i, SameProject(slugs[ProjectKey(relay, lower)]), lower))
  {
    hide Project, ProjectKey, Justified, Reads;
    var relay := entries[i].value;
    if relay.name in seen {
      NameClashes(entries, relays, i, seen[relay.name], lower);
    }
    if ProjectKey(relay, lower) in slugs {
      var j := slugs[ProjectKey(relay, lower)];
      SameKey(relays[j], relay, lower);
      ProjectClashes(entries, relays, i, j, lower);
    }
  }

  // The file's entries one by one, with the names and projects seen so far. A
  // rejection names the first entry that does not fit behind those before it.
  method Parse(entries: seq<Option<RelayEntry>>, lower: string -> string) returns (r: Parsed)
    requires Known(entries)
    ensures r.Accepted? <==> Acceptable(entries, lower)
    ensures r.Accepted? ==> Reads(entries, r.relays)
    ensures r.Rejected? ==> r.index < |entries| && Acceptable(entries[..r.index], lower)
                            && !Acceptable(entries[..r.index + 1], lower)
    ensures r.Rejected? ==> Justified(entries, r.index, r.why, lower)
  {
    hide Project, ProjectKey, Acceptable, Fits, SeenNames, SeenProjects, Reads, Justified;
    var relays: seq<RelayEntry> := [];
    var seen: map<string, nat> := map[];
    var slugs: map<string, nat> := map[];
    NothingSeen(lower);
    for i := 0 to |entries|
      invariant |relays| == i && Reads(entries[..i], relays) && Acceptable(entries[..i], lower)
      invariant forall j | 0 <= j < i :: relays[j].provider in PROVIDERS
      invariant SeenNames(seen, relays) && SeenProjects(slugs, relays, lower)
    {
      FitsNext(entries, relays, i, lower);
      if entries[i].None? {
        NoneNeverFits(relays, lower);
        MalformedJustified(entries, i, lower);
        return Rejected(i, Malformed);
      }
      var relay := entries[i].value;
      FitsByMaps(seen, slugs, relays, relay, lower);
      Clashes(entries, relays, i, seen, slugs, lower);
      if relay.name in seen {
        return Rejected(i, DuplicateName(seen[relay.name]));
      }
      NextName(seen, relays, relay);
      seen := seen[relay.name := i];
      var slugKey := ProjectKey(relay, lower);
      if slugKey in slugs {
        return Rejected(i, SameProject(slugs[slugKey]));
      }
      NextProject(slugs, relays, relay, lower);
      slugs := slugs[slugKey := i];
      relays := relays + [relay];
    }
    assert entries[..|entries|] == entries;
    return Accepted(relays);
  }

  lemma MalformedJustified(entries: seq<Option<RelayEntry>>, i: nat, lower: string -> string)
    requires i < |entries| && entries[i].None?
    ensures Justified(entries, i, Malformed, lower)
  {
  }

  lemma NothingSeen(lower: string -> string)
    ensures SeenNames(map[], []) && SeenProjects(map[], [], lower) && Acceptable([], lower) && Reads([], [])
  {
  }

  lemma NoneNeverFits(relays: seq<RelayEntry>, lower: string -> string)
    ensures !Fits(relays, None, lower)
  {
  }

  // An accepted configuration maps its relays injectively to deployments.
  lemma ProjectsInjective(entries: seq<Option<RelayEntry>>, relays: seq<RelayEntry>, lower: string -> string,
                          i: nat, j: nat)
    requires Acceptable(entries, lower) && Reads(entries, relays) && i < |relays| && j < |relays|
    ensures Project(relays[i], lower) == Project(relays[j], lower) ==> i == j
    ensures relays[i].name == relays[j].name ==> i == j
  {
    assert entries[i] == Some(relays[i]) && entries[j] == Some(relays[j]);
  }

  // ----------------------------------------------------------- the settings

  datatype FileSettings = FileSettings(
    maxRetries: int, failureThreshold: int, cooldown: Duration, streamThreshold: int, dialTimeout: Duration,
    responseHeaderTimeout: Duration, verifyInterval: Duration, reviveScanInterval: Duration, backoffBase: Duration,
    backoffMax: Duration, recoverMax: Duration, demoteAfter: int)

  // The range checks, one by one.
  predicate InRange(s: FileSettings) {
    && !(s.maxRetries < 0 || s.maxRetries > 16)
    && !(s.failureThreshold < 1)
    && !(s.cooldown < 0)
    && !(s.streamThreshold < 0)
    && !(s.dialTimeout <= 0)
    && !(s.responseHeaderTimeout < 0)
    && !(s.verifyInterval <= 0)
    && !(s.reviveScanInterval <= 0)
    && !(s.backoffBase <= 0 || s.backoffMax < s.backoffBase)
    && !(s.recoverMax <= 0)
    && !(s.demoteAfter < 1)
  }

  // The settings the registry is handed on a reload.
  function ForRegistry(s: FileSettings): RawSettings {
    RawSettings(s.backoffBase, s.backoffMax, s.recoverMax, s.reviveScanInterval, s.demoteAfter)
  }

  // The range checks accept exactly the settings that no registry replaces by a
  // fallback, whose gates can open and close, and that bound the attempt loop.
  lemma InRangeExactly(s: FileSettings)
    ensures InRange(s) <==>
              && (forall cfg :: Merge(cfg, ForRegistry(s)).backoffBase == s.backoffBase
                                && Merge(cfg, ForRegistry(s)).backoffMax == s.backoffMax
                                && Merge(cfg, ForRegistry(s)).recoverMax == s.recoverMax
                                && Merge(cfg, ForRegistry(s)).pauseRetry == s.reviveScanInterval
                                && Merge(cfg, ForRegistry(s)).demoteAfter == s.demoteAfter)
              && s.backoffBase <= s.backoffMax && 0 <= s.maxRetries <= 16
              && s.failureThreshold > 0 && s.cooldown >= 0 && s.streamThreshold >= 0
              && s.dialTimeout > 0 && s.responseHeaderTimeout >= 0 && s.verifyInterval > 0
  {
    if !InRange(s) {
      assert Merge(DEFAULTS, ForRegistry(s)).demoteAfter > 0;
    }
  }

  // Accepted settings reach the registry as they stand, whatever it ran with:
  // none is replaced by a fallback. They also bound the attempt loop.
  lemma AcceptedSettingsStand(s: FileSettings, cfg: Settings)
    requires InRange(s)
    ensures var merged := Merge(cfg, ForRegistry(s));
            && merged == Settings(s.backoffBase, s.backoffMax, s.recoverMax, s.reviveScanInterval, s.demoteAfter)
            && merged.backoffBase <= merged.backoffMax
            && 0 <= s.maxRetries <= MAX_RETRIES
  {
  }
}
