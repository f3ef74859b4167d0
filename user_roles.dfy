/** User roles: the restricted users and the paths they may open, each read
    from a comma-separated setting, and the two membership tests. The
    settings are parameters: None is an unset variable. */
module UserRoles {
  import opened Js
  import opened Seqs

  predicate HasText(e: string) {
    e != ""
  }

  /** split(','), trim each piece, drop the empty ones. */
  function CommaList(s: string): seq<string> {
    Filter(Map(Split(s, ','), Trim), HasText)
  }

  /** getRestrictedUsers: an unset or empty setting gives no users. */
  function RestrictedUsers(setting: Option<string>): seq<string> {
    if setting.None? || setting.value == "" then [] else CommaList(setting.value)
  }

  /** The paths a restricted user keeps when nothing is configured. */
  const DefaultPaths: seq<string> := ["/signin", "/profile"]

  /** getAllowedPaths: an unset or empty setting gives the default paths. */
  function AllowedPaths(setting: Option<string>): seq<string> {
    if setting.None? || setting.value == "" then DefaultPaths else CommaList(setting.value)
  }

  /** isRestrictedUser: Array.prototype.includes, so only a string equal to
      an entry matches. */
  predicate IsRestrictedUser(users: seq<string>, email: Value) {
    email.Str? && email.s in users
  }

  /** isAllowedPath. */
  predicate IsAllowedPath(paths: seq<string>, path: Value) {
    path.Str? && path.s in paths
  }

  // -----------------------------------------------------------------------
  // Properties

  /** An entry of a list has text and no white space around it. */
  predicate Clean(e: string) {
    e != "" && Trimmed(e)
  }

  /** A string is in the list exactly when it is a trimmed piece of the
      setting with some text, and every entry is clean. */
  lemma {:induction false} CommaListSpec(s: string, e: string)
    ensures e in CommaList(s) <==> e != "" && exists p :: p in Split(s, ',') && Trim(p) == e
    ensures forall x :: x in CommaList(s) ==> Clean(x)
  {
    var pieces := Split(s, ',');
    var trimmed := Map(pieces, Trim);
    MapMember(pieces, Trim, e);
    FilterMember(trimmed, HasText, e);
    forall x | x in CommaList(s)
      ensures Clean(x)
    {
      FilterMember(trimmed, HasText, x);
      MapMember(pieces, Trim, x);
      var p :| p in pieces && Trim(p) == x;
      TrimSpec(p);
    }
  }

  lemma MapMember(s: seq<string>, f: string -> string, e: string)
    ensures e in Map(s, f) <==> exists p :: p in s && f(p) == e
  {
    if p :| p in s && f(p) == e {
      var i :| 0 <= i < |s| && s[i] == p;
      assert Map(s, f)[i] == e;
    }
  }

  lemma FilterMember(s: seq<string>, keep: string -> bool, e: string)
    ensures e in Filter(s, keep) <==> e in s && keep(e)
  {
    if e in Filter(s, keep) {
      var i :| 0 <= i < |Filter(s, keep)| && Filter(s, keep)[i] == e;
    }
    if e in s && keep(e) {
      var i :| 0 <= i < |s| && s[i] == e;
    }
  }

  /** Both lists, configured or not, hold only clean entries, so an email or
      path with surrounding white space is never matched. */
  lemma ListsAreClean(users: Option<string>, paths: Option<string>, e: string)
    ensures forall x :: x in RestrictedUsers(users) ==> Clean(x)
    ensures forall x :: x in AllowedPaths(paths) ==> Clean(x)
    ensures IsRestrictedUser(RestrictedUsers(users), Str(e)) || IsAllowedPath(AllowedPaths(paths), Str(e)) ==> Clean(e)
  {
    if users.Some? {
      CommaListSpec(users.value, e);
    }
    if paths.None? || paths.value == "" {
      DefaultPathsClean();
    } else {
      CommaListSpec(paths.value, e);
    }
  }

  lemma DefaultPathsClean()
    ensures forall x :: x in DefaultPaths ==> Clean(x)
  {
    assert !IsSpace('/') && !IsSpace('n') && !IsSpace('e');
    assert Clean("/signin") && Clean("/profile");
  }

  /** An unset or empty setting gives no restricted users and exactly the
      default paths; only a string can be a member. */
  lemma Defaults(email: Value)
    ensures RestrictedUsers(None) == [] && RestrictedUsers(Some("")) == []
    ensures AllowedPaths(None) == ["/signin", "/profile"] && AllowedPaths(Some("")) == ["/signin", "/profile"]
    ensures !email.Str? ==> !IsRestrictedUser(RestrictedUsers(None), email) && !IsAllowedPath(DefaultPaths, email)
    ensures IsAllowedPath(AllowedPaths(None), Str("/signin")) && IsAllowedPath(AllowedPaths(None), Str("/profile"))
  {
  }

  /** Writing clean entries with commas between them gives them back. */
  lemma {:induction false} CommaListJoin(entries: seq<string>)
    requires |entries| >= 1
    requires forall x :: x in entries ==> Clean(x) && ',' !in x
    ensures CommaList(Join(entries, ',')) == entries
  {
    SplitJoin(entries, ',');
    TrimEach(entries);
    forall i | 0 <= i < |entries|
      ensures entries[i] != ""
    {
      assert entries[i] in entries;
    }
    FilterAll(entries);
  }

  lemma {:induction false} SplitJoin(parts: seq<string>, c: char)
    requires |parts| >= 1
    requires forall x :: x in parts ==> c !in x
    ensures Split(Join(parts, c), c) == parts
    decreases |parts|
  {
    var s := Join(parts, c);
    var head := parts[0];
    assert head in parts;
    if |parts| == 1 {
      assert s == head;
    } else {
      var tail := parts[1..];
      var rest := Join(tail, c);
      assert s == head + [c] + rest;
      forall x | x in tail
        ensures c !in x
      {
        assert x in parts;
      }
      SplitJoin(tail, c);
      assert s[|head|] == c;
      assert s[..|head|] == head;
      IndexOfCharAt(s, c, |head|);
      assert s[|head| + 1..] == rest;
      assert Split(s, c) == [head] + Split(rest, c);
      assert parts == [head] + tail;
    }
  }

  /** The first c in s is the one at i when none comes before it. */
  lemma IndexOfCharAt(s: string, c: char, i: nat)
    requires i < |s| && s[i] == c && c !in s[..i]
    ensures IndexOfChar(s, c) == i
  {
  }

  lemma TrimEach(s: seq<string>)
    requires forall x :: x in s ==> Trimmed(x)
    ensures Map(s, Trim) == s
  {
    forall i | 0 <= i < |s|
      ensures Map(s, Trim)[i] == s[i]
    {
      TrimTrimmed(s[i]);
    }
  }

  lemma {:induction false} FilterAll(s: seq<string>)
    requires forall i :: 0 <= i < |s| ==> s[i] != ""
    ensures Filter(s, HasText) == s
  {
    if s != [] {
      FilterAll(s[..|s| - 1]);
      assert s == s[..|s| - 1] + [s[|s| - 1]];
    }
  }
}
