/**
 Which specialist handles a target: the routing table, and the name a target goes by.

 Case folding is a parameter.
 */
module Routing {
  import opened Prelude

  datatype Specialist = Builtin(model: string) | External(command: string)

  datatype Route = Route(scenario: string, repository: string, specialist: string, outputRepository: Option<string>,
      outputBranch: string)

  datatype Table = Table(specialists: map<string, Specialist>, routes: seq<Route>)

  const DEFAULT_SPECIALIST := "default"

  type Fold = string -> string

  // ---- Integrity ----

  datatype ConfigError = NoDefault | DefaultIsExternal | UndefinedSpecialist(at: nat)
      | RoutedTwice(at: nat, first: string)

  predicate DefaultDefined(t: Table) {
    DEFAULT_SPECIALIST in t.specialists && t.specialists[DEFAULT_SPECIALIST].Builtin?
  }

  predicate RouteOk(fold: Fold, t: Table, i: nat)
    requires i < |t.routes|
  {
    && t.routes[i].specialist in t.specialists
    && forall j | 0 <= j < i :: fold(t.routes[j].repository) != fold(t.routes[i].repository)
  }

  // What the loader guarantees: a builtin default, defined specialists, no repository twice.
  predicate Integral(fold: Fold, t: Table) {
    DefaultDefined(t) && forall i | 0 <= i < |t.routes| :: RouteOk(fold, t, i)
  }

  method CheckReferentialIntegrity(fold: Fold, t: Table) returns (error: Option<ConfigError>)
    ensures error.None? <==> Integral(fold, t)
    ensures error.Some? && error.value.NoDefault? ==> DEFAULT_SPECIALIST !in t.specialists
    ensures error.Some? && error.value.DefaultIsExternal? ==> DEFAULT_SPECIALIST in t.specialists && !DefaultDefined(t)
    ensures error.Some? && error.value.UndefinedSpecialist? ==>
              error.value.at < |t.routes| && t.routes[error.value.at].specialist !in t.specialists
    ensures error.Some? && error.value.RoutedTwice? ==>
              error.value.at < |t.routes| && exists j | 0 <= j < error.value.at ::
                fold(t.routes[j].repository) == fold(t.routes[error.value.at].repository)
                    && t.routes[j].scenario == error.value.first
    ensures error.Some? && (error.value.UndefinedSpecialist? || error.value.RoutedTwice?) ==>
              DefaultDefined(t) && forall i | 0 <= i < error.value.at :: RouteOk(fold, t, i)
  {
    if DEFAULT_SPECIALIST !in t.specialists {
      return Some(NoDefault);
    }
    if t.specialists[DEFAULT_SPECIALIST].External? {
      return Some(DefaultIsExternal);
    }
    var seen: map<string, string> := map[];
    var i := 0;
    while i < |t.routes|
      invariant i <= |t.routes|
      invariant forall k | 0 <= k < i :: RouteOk(fold, t, k)
      invariant forall key :: key in seen <==> exists j | 0 <= j < i :: fold(t.routes[j].repository) == key
      invariant forall j | 0 <= j < i :: seen[fold(t.routes[j].repository)] == t.routes[j].scenario
    {
      var route := t.routes[i];
      if route.specialist !in t.specialists {
        assert !RouteOk(fold, t, i);
        return Some(UndefinedSpecialist(i));
      }
      var key := fold(route.repository);
      if key in seen {
        assert !RouteOk(fold, t, i);
        return Some(RoutedTwice(i, seen[key]));
      }
      seen := seen[key := route.scenario];
      i := i + 1;
    }
    return None;
  }

  // ---- Resolution ----

  datatype Resolution = Resolution(scenario: string, name: string, specialist: Specialist,
      outputRepository: Option<string>, outputBranch: string)

  function ResolvedBy(t: Table, r: Route): Resolution
    requires r.specialist in t.specialists
  {
    Resolution(r.scenario, r.specialist, t.specialists[r.specialist], r.outputRepository, r.outputBranch)
  }

  // The route is for this target, however either is spelled.
  predicate Names(fold: Fold, route: Route, repository: Option<string>) {
    repository.GetOr("") != "" && fold(route.repository) == fold(repository.value)
  }

  function FirstMatch(fold: Fold, routes: seq<Route>, wanted: string): Option<Route> {
    if routes == [] then None
    else if fold(routes[0].repository) == wanted then Some(routes[0])
    else FirstMatch(fold, routes[1..], wanted)
  }

  // None: the lookup of the specialist fails.
  function Resolve(fold: Fold, t: Table, repository: Option<string>): Option<Resolution> {
    var hit := if repository.GetOr("") == "" then None else FirstMatch(fold, t.routes, fold(repository.value));
    match hit
    case Some(r) =>
      if r.specialist in t.specialists then Some(ResolvedBy(t, r)) else None
    case None =>
      if DEFAULT_SPECIALIST in t.specialists
      then Some(Resolution("", DEFAULT_SPECIALIST, t.specialists[DEFAULT_SPECIALIST], None, "main"))
      else None
  }

  method ResolveTarget(fold: Fold, t: Table, repository: Option<string>) returns (r: Option<Resolution>)
    ensures r == Resolve(fold, t, repository)
  {
    if repository.GetOr("") != "" {
      var wanted := fold(repository.value);
      var i := 0;
      assert t.routes[0..] == t.routes;
      while i < |t.routes|
        invariant i <= |t.routes|
        invariant FirstMatch(fold, t.routes[i..], wanted) == FirstMatch(fold, t.routes, wanted)
      {
        assert t.routes[i..][1..] == t.routes[i + 1..];
        var route := t.routes[i];
        if fold(route.repository) == wanted {
          return if route.specialist in t.specialists then Some(ResolvedBy(t, route)) else None;
        }
        i := i + 1;
      }
    }
    return if DEFAULT_SPECIALIST in t.specialists
      then Some(Resolution("", DEFAULT_SPECIALIST, t.specialists[DEFAULT_SPECIALIST], None, "main"))
      else None;
  }

  lemma {:induction false} FirstMatchMeaning(fold: Fold, routes: seq<Route>, wanted: string)
    ensures match FirstMatch(fold, routes, wanted)
            case None => forall r | r in routes :: fold(r.repository) != wanted
            case Some(r) => r in routes && fold(r.repository) == wanted
    decreases |routes|
  {
    if routes != [] {
      FirstMatchMeaning(fold, routes[1..], wanted);
      assert forall r | r in routes :: r == routes[0] || r in routes[1..];
    }
  }

  lemma UniqueRoute(fold: Fold, t: Table, a: Route, b: Route)
    requires Integral(fold, t) && a in t.routes && b in t.routes && fold(a.repository) == fold(b.repository)
    ensures a == b
  {
    var i :| 0 <= i < |t.routes| && t.routes[i] == a;
    var j :| 0 <= j < |t.routes| && t.routes[j] == b;
    assert RouteOk(fold, t, i) && RouteOk(fold, t, j);
  }

  // On a table that passed the check, every target has a specialist: the one route that names it,
  // however it is spelled, or the builtin default.
  lemma ResolvesTotally(fold: Fold, t: Table, repository: Option<string>)
    requires Integral(fold, t)
    ensures var r := Resolve(fold, t, repository);
            && r.Some? && r.value.name in t.specialists && r.value.specialist == t.specialists[r.value.name]
            && (forall route | route in t.routes && Names(fold, route, repository) ::
                  && r.value.scenario == route.scenario && r.value.name == route.specialist
                  && r.value.outputRepository == route.outputRepository
                  && r.value.outputBranch == route.outputBranch)
            && ((forall route | route in t.routes :: !Names(fold, route, repository)) ==>
                  && r.value.name == DEFAULT_SPECIALIST && r.value.specialist.Builtin?
                  && r.value.scenario == "" && r.value.outputRepository.None? && r.value.outputBranch == "main")
  {
    if repository.GetOr("") != "" {
      FirstMatchMeaning(fold, t.routes, fold(repository.value));
      var hit := FirstMatch(fold, t.routes, fold(repository.value));
      if hit.Some? {
        var i :| 0 <= i < |t.routes| && t.routes[i] == hit.value;
        assert RouteOk(fold, t, i);
        forall route | route in t.routes && Names(fold, route, repository) ensures route == hit.value {
          UniqueRoute(fold, t, route, hit.value);
        }
      }
    }
  }

  lemma ResolvesWhateverTheCase(fold: Fold, t: Table, a: string, b: string)
    requires fold(a) == fold(b) && (a == "" <==> b == "")
    ensures Resolve(fold, t, Some(a)) == Resolve(fold, t, Some(b))
  {
  }

  lemma PermutedIntegral(fold: Fold, t: Table, u: Table)
    requires Integral(fold, t) && u.specialists == t.specialists && multiset(u.routes) == multiset(t.routes)
    ensures Integral(fold, u)
  {
    forall i | 0 <= i < |u.routes| ensures RouteOk(fold, u, i) {
      assert u.routes[i] in multiset(t.routes);
      var k :| 0 <= k < |t.routes| && t.routes[k] == u.routes[i];
      assert RouteOk(fold, t, k);
      forall j | 0 <= j < i ensures fold(u.routes[j].repository) != fold(u.routes[i].repository) {
        assert u.routes[j] in multiset(t.routes);
        if fold(u.routes[j].repository) == fold(u.routes[i].repository) {
          UniqueRoute(fold, t, u.routes[j], u.routes[i]);
          TwoCopies(u.routes, j, i);
          OneCopy(fold, t, u.routes[i]);
        }
      }
    }
  }

  lemma TwoCopies(s: seq<Route>, j: nat, i: nat)
    requires j < i < |s| && s[j] == s[i]
    ensures multiset(s)[s[i]] >= 2
  {
    assert s == s[..i] + [s[i]] + s[i + 1..];
    assert s[j] in s[..i];
  }

  lemma {:induction false} OneCopy(fold: Fold, t: Table, r: Route)
    requires Integral(fold, t)
    ensures multiset(t.routes)[r] <= 1
    decreases |t.routes|
  {
    if t.routes != [] {
      var n := |t.routes| - 1;
      var shorter := t.(routes := t.routes[..n]);
      assert t.routes == t.routes[..n] + [t.routes[n]];
      forall i | 0 <= i < n ensures RouteOk(fold, shorter, i) {
        assert RouteOk(fold, t, i);
      }
      OneCopy(fold, shorter, r);
      if r == t.routes[n] {
        assert RouteOk(fold, t, n);
        assert r !in t.routes[..n];
      }
    }
  }

  // The order of the routes does not matter to a table that passed the check.
  lemma ResolvesInAnyOrder(fold: Fold, t: Table, u: Table, repository: Option<string>)
    requires Integral(fold, t) && u.specialists == t.specialists && multiset(u.routes) == multiset(t.routes)
    ensures Integral(fold, u) && Resolve(fold, u, repository) == Resolve(fold, t, repository)
  {
    PermutedIntegral(fold, t, u);
    if repository.GetOr("") != "" {
      var wanted := fold(repository.value);
      FirstMatchMeaning(fold, t.routes, wanted);
      FirstMatchMeaning(fold, u.routes, wanted);
      var x, y := FirstMatch(fold, t.routes, wanted), FirstMatch(fold, u.routes, wanted);
      if x.Some? {
        assert x.value in multiset(u.routes);
      }
      if y.Some? {
        assert y.value in multiset(t.routes);
      }
      if x.Some? && y.Some? {
        UniqueRoute(fold, t, x.value, y.value);
      }
    }
  }

  // Without the check it does.
  lemma OrderMattersUnchecked() returns (fold: Fold, t: Table, u: Table)
    ensures u.specialists == t.specialists && multiset(u.routes) == multiset(t.routes)
    ensures Resolve(fold, t, Some("r")) != Resolve(fold, u, Some("r"))
  {
    fold := s => s;
    var a, b := Route("x", "r", "default", None, "main"), Route("y", "r", "default", None, "main");
    t, u := Table(map["default" := Builtin("m")], [a, b]), Table(map["default" := Builtin("m")], [b, a]);
    assert multiset([a, b]) == multiset([b, a]);
    assert FirstMatch(fold, [a, b], "r") == Some(a) && FirstMatch(fold, [b, a], "r") == Some(b);
    assert Resolve(fold, t, Some("r")).value.scenario == "x" && Resolve(fold, u, Some("r")).value.scenario == "y";
    assert "x"[0] != "y"[0];
  }

  // ---- Repository names ----

  function Slashed(t: string): string {
    seq(|t|, i requires 0 <= i < |t| => if t[i] == '\\' then '/' else t[i])
  }

  function TrimSlashes(t: string): string {
    if t != "" && t[|t| - 1] == '/' then TrimSlashes(t[..|t| - 1]) else t
  }

  function AfterLast(t: string, ch: char): string {
    if t == "" || t[|t| - 1] == ch then "" else AfterLast(t[..|t| - 1], ch) + [t[|t| - 1]]
  }

  const GIT := ".git"

  predicate EndsWithGit(t: string) {
    |t| >= |GIT| && t[|t| - |GIT|..] == GIT
  }

  function WithoutGit(t: string): string {
    if EndsWithGit(t) then t[..|t| - |GIT|] else t
  }

  function RepositoryName(url: string): Option<string> {
    var name := WithoutGit(AfterLast(AfterLast(TrimSlashes(Slashed(Strip(url))), '/'), ':'));
    if url == "" || name == "" then None else Some(name)
  }

  predicate Separator(ch: char) {
    ch == '/' || ch == '\\' || ch == ':'
  }

  predicate Plain(name: string) {
    name != "" && !Space(name[0]) && !Space(name[|name| - 1]) && forall i | 0 <= i < |name| :: !Separator(name[i])
  }

  // Whatever comes before the name ends in a separator.
  predicate Leads(lead: string) {
    lead == "" || Separator(lead[|lead| - 1])
  }

  lemma {:induction false} StripLeftOf(lead: string, rest: string)
    requires Leads(lead) && rest != "" && !Space(rest[0])
    ensures StripLeft(lead + rest) == StripLeft(lead) + rest && Leads(StripLeft(lead))
    decreases |lead|
  {
    if lead != "" && Space(lead[0]) {
      assert (lead + rest)[1..] == lead[1..] + rest;
      StripLeftOf(lead[1..], rest);
    } else {
      assert lead == "" ==> lead + rest == rest;
    }
  }

  lemma {:induction false} StripRightOf(t: string, spaces: string)
    requires t != "" && !Space(t[|t| - 1]) && forall i | 0 <= i < |spaces| :: Space(spaces[i])
    ensures StripRight(t + spaces) == t
    decreases |spaces|
  {
    if spaces == "" {
      assert t + spaces == t;
    } else {
      assert (t + spaces)[..|t + spaces| - 1] == t + spaces[..|spaces| - 1];
      StripRightOf(t, spaces[..|spaces| - 1]);
    }
  }

  lemma {:induction false} TrimSlashesOf(t: string, slashes: string)
    requires t != "" && t[|t| - 1] != '/' && forall i | 0 <= i < |slashes| :: slashes[i] == '/'
    ensures TrimSlashes(t + slashes) == t
    decreases |slashes|
  {
    if slashes == "" {
      assert t + slashes == t;
    } else {
      assert (t + slashes)[..|t + slashes| - 1] == t + slashes[..|slashes| - 1];
      TrimSlashesOf(t, slashes[..|slashes| - 1]);
    }
  }

  lemma {:induction false} AfterLastOf(lead: string, rest: string, ch: char)
    requires (lead == "" || lead[|lead| - 1] == ch) && forall i | 0 <= i < |rest| :: rest[i] != ch
    ensures AfterLast(lead + rest, ch) == rest
    decreases |rest|
  {
    if rest == "" {
      assert lead + rest == lead;
    } else {
      var n := |rest| - 1;
      assert (lead + rest)[..|lead + rest| - 1] == lead + rest[..n];
      AfterLastOf(lead, rest[..n], ch);
      assert rest == rest[..n] + [rest[n]];
    }
  }

  // After a lead that ends in another character, the last `ch` is still in the lead.
  lemma {:induction false} AfterLastThrough(lead: string, rest: string, ch: char)
    requires forall i | 0 <= i < |rest| :: rest[i] != ch
    ensures AfterLast(lead + rest, ch) == AfterLast(lead, ch) + rest
    decreases |rest|
  {
    if rest == "" {
      assert lead + rest == lead && AfterLast(lead, ch) + rest == AfterLast(lead, ch);
    } else {
      var n := |rest| - 1;
      assert (lead + rest)[..|lead + rest| - 1] == lead + rest[..n];
      AfterLastThrough(lead, rest[..n], ch);
      assert AfterLast(lead, ch) + rest == AfterLast(lead, ch) + rest[..n] + [rest[n]];
    }
  }

  // The part of a lead that survives ends in ':' or is gone.
  lemma NameAfterLead(lead: string, rest: string)
    requires (lead == "" || lead[|lead| - 1] == '/' || lead[|lead| - 1] == ':')
    requires forall i | 0 <= i < |rest| :: rest[i] != '/' && rest[i] != ':'
    ensures AfterLast(AfterLast(lead + rest, '/'), ':') == rest
  {
    AfterLastThrough(lead, rest, '/');
    var kept := AfterLast(lead, '/');
    assert kept == "" || kept[|kept| - 1] == ':';
    AfterLastOf(kept, rest, ':');
  }

  predicate Suffix(git: string, slashes: string, spaces: string) {
    && (git == "" || git == GIT)
    && (forall i | 0 <= i < |slashes| :: slashes[i] == '/' || slashes[i] == '\\')
    && (forall i | 0 <= i < |spaces| :: Space(spaces[i]))
  }

  // One path segment: no separator in it, no blank at either end.
  lemma SegmentOf(name: string, git: string)
    requires Plain(name) && (git == "" || git == GIT)
    ensures Plain(name + git)
  {
    assert GIT[0] == '.' && GIT[1] == 'g' && GIT[2] == 'i' && GIT[3] == 't';
  }

  lemma StripOf(lead: string, segment: string, slashes: string, spaces: string)
    requires Plain(segment) && Leads(lead) && Suffix("", slashes, spaces)
    ensures Strip(lead + (segment + slashes + spaces)) == StripLeft(lead) + (segment + slashes)
    ensures Leads(StripLeft(lead))
  {
    var body := segment + slashes;
    StripLeftOf(lead, body + spaces);
    var kept := StripLeft(lead);
    assert kept + (body + spaces) == (kept + body) + spaces;
    assert slashes == "" ==> body[|body| - 1] == segment[|segment| - 1];
    StripRightOf(kept + body, spaces);
  }

  lemma SlashedOf(lead: string, segment: string, slashes: string)
    requires Plain(segment) && Leads(lead) && Suffix("", slashes, "")
    ensures TrimSlashes(Slashed(lead + (segment + slashes))) == Slashed(lead) + segment
  {
    assert Slashed(lead + (segment + slashes)) == (Slashed(lead) + segment) + Slashed(slashes);
    TrimSlashesOf(Slashed(lead) + segment, Slashed(slashes));
  }

  lemma TailOf(lead: string, name: string, git: string, slashes: string, spaces: string)
    requires Plain(name) && Leads(lead) && Suffix(git, slashes, spaces)
    ensures var url := lead + (name + git + slashes + spaces);
            AfterLast(AfterLast(TrimSlashes(Slashed(Strip(url))), '/'), ':') == name + git
  {
    SegmentOf(name, git);
    var segment := name + git;
    StripOf(lead, segment, slashes, spaces);
    SlashedOf(StripLeft(lead), segment, slashes);
    NameAfterLead(Slashed(StripLeft(lead)), segment);
  }

  // Every spelling of a repository leads back to its plain name (https, scp or Windows path before
  // it; .git, slashes or blanks after it) unless the name itself ends in .git and the spelling
  // leaves the suffix off.
  lemma SpellingsAgree(lead: string, name: string, git: string, slashes: string, spaces: string)
    requires Plain(name) && Leads(lead) && Suffix(git, slashes, spaces)
    ensures RepositoryName(lead + (name + git + slashes + spaces)) == Some(name) <==> git == GIT || !EndsWithGit(name)
  {
    TailOf(lead, name, git, slashes, spaces);
    if git == GIT {
      assert (name + git)[|name|..] == GIT && (name + git)[..|name|] == name;
    } else {
      assert name + git == name;
    }
  }
}
