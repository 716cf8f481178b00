/**
 * The navigation bar of the client (client/components/RoleBasedNav.tsx): the avatar
 * initials, the role badge colour, and which links are shown to whom.
 */
module RoleBasedNav {
  import opened Wrappers
  import Text
  import Auth

  // ---------------------------------------------------------------------------
  // Initials

  /** `s.split(" ")`: the pieces between spaces; repeated spaces give empty pieces, and "" gives `[""]`. */
  function Split(s: string): (r: seq<string>)
    ensures |r| >= 1
    ensures forall w :: w in r ==> ' ' !in w
  {
    if s == [] then [""]
    else if s[0] == ' ' then [""] + Split(s[1..])
    else
      var rest := Split(s[1..]);
      assert forall k :: 0 < k < |rest| ==> rest[k] in rest;
      [[s[0]] + rest[0]] + rest[1..]
  }

  /** `words.join(" ")`. */
  function JoinWords(words: seq<string>): string {
    if words == [] then "" else if |words| == 1 then words[0] else words[0] + " " + JoinWords(words[1..])
  }

  /** Splitting on spaces loses nothing: joining the pieces with spaces gives the name back. */
  lemma {:induction false} SplitJoin(s: string)
    ensures JoinWords(Split(s)) == s
  {
    if s != [] {
      SplitJoin(s[1..]);
      var rest := Split(s[1..]);
      if s[0] == ' ' {
        assert Split(s) == [""] + rest;
        assert s == [' '] + s[1..];
      } else {
        assert Split(s)[1..] == rest[1..];
        if |rest| > 1 {
          assert JoinWords(rest) == rest[0] + " " + JoinWords(rest[1..]);
        }
        assert s == [s[0]] + s[1..];
      }
    }
  }

  /** `n[0]` joined with `""`: the first character of a piece, nothing for an empty piece. */
  function Firsts(words: seq<string>): string {
    if words == [] then "" else (if words[0] == "" then "" else [words[0][0]]) + Firsts(words[1..])
  }

  /**
   * The reference definition: the characters that start a word, that is the non-space characters
   * at the start of the name or right after a space. `atStart` says whether the position starts a word.
   */
  function WordStarts(s: string, atStart: bool): (r: string)
    ensures |r| <= |s|
    ensures forall k :: 0 <= k < |r| ==> r[k] != ' '
  {
    if s == [] then ""
    else (if atStart && s[0] != ' ' then [s[0]] else "") + WordStarts(s[1..], s[0] == ' ')
  }

  /** The first characters of the pieces are exactly the characters that start a word. */
  lemma {:induction false} FirstsAreWordStarts(s: string)
    ensures Firsts(Split(s)) == WordStarts(s, true)
    ensures Firsts(Split(s)[1..]) == WordStarts(s, false)
  {
    if s != [] {
      FirstsAreWordStarts(s[1..]);
      var rest := Split(s[1..]);
      if s[0] == ' ' {
        assert Split(s) == [""] + rest;
        assert Split(s)[1..] == rest;
      } else {
        var w := [s[0]] + rest[0];
        assert Split(s) == [w] + rest[1..];
        assert Split(s)[1..] == rest[1..];
        assert Firsts(Split(s)) == [s[0]] + Firsts(rest[1..]);
      }
    }
  }

  /** `.slice(0, 2)`. */
  function TakeTwo(s: string): (r: string)
    ensures |r| <= 2 && |r| <= |s| && r == s[..|r|]
    ensures |r| == if |s| < 2 then |s| else 2
  {
    if |s| <= 2 then s else s[..2]
  }

  /** `getUserInitials`: the upper-cased first characters of the space-separated pieces, at most two. */
  function Initials(name: string): string {
    TakeTwo(Text.Upper(Firsts(Split(name))))
  }

  /** The initials are at most two characters: the upper-cased first two word starts of the name. */
  lemma InitialsAreWordStarts(name: string)
    ensures |Initials(name)| <= 2
    ensures Initials(name) == TakeTwo(Text.Upper(WordStarts(name, true)))
    ensures forall k :: 0 <= k < |Initials(name)| ==> Initials(name)[k] == Text.UpperChar(WordStarts(name, true)[k])
  {
    FirstsAreWordStarts(name);
  }

  // ---------------------------------------------------------------------------
  // Badge colour and links

  const GovernmentColor: string := "bg-blue-100 text-blue-800"
  const ResearcherColor: string := "bg-green-100 text-green-800"
  const OtherColor: string := "bg-gray-100 text-gray-800"

  /** `getRoleColor`: blue for government, green for researcher, gray for every other role. */
  function RoleColor(role: string): (c: string)
    ensures c == GovernmentColor <==> role == "government"
    ensures c == ResearcherColor <==> role == "researcher"
    ensures c == OtherColor <==> role != "government" && role != "researcher"
  {
    match role
    case "government" => GovernmentColor
    case "researcher" => ResearcherColor
    case _ => OtherColor
  }

  const CommonLinks: seq<string> := ["/dashboard", "/modules", "/map"]
  const ResearcherLinks: seq<string> := ["/upload", "/submissions", "/my-submissions"]
  const GovernmentLinks: seq<string> := ["/approvals", "/stats"]

  /**
   * The links of the bar, in order: nothing at all without a user; otherwise the dashboard, the
   * researcher links when the researcher flag is set, the government links when the government
   * flag is set, then the modules and the map.
   */
  function NavLinks(user: Option<Auth.User>, isResearcher: bool, isGovernment: bool): (r: Option<seq<string>>)
    ensures r.None? <==> user.None?
    ensures r.Some? ==> forall l :: l in CommonLinks ==> l in r.value
    ensures r.Some? ==> forall l :: l in ResearcherLinks ==> (l in r.value <==> isResearcher)
    ensures r.Some? ==> forall l :: l in GovernmentLinks ==> (l in r.value <==> isGovernment)
    ensures r.Some? ==> forall l :: l in r.value ==> l in CommonLinks + ResearcherLinks + GovernmentLinks
  {
    if user.None? then None
    else Some(["/dashboard"] + (if isResearcher then ResearcherLinks else [])
              + (if isGovernment then GovernmentLinks else []) + ["/modules", "/map"])
  }

  /**
   * The flags as the bar receives them: it takes `isGovernment` and `isResearcher` from the context
   * of client/hooks/auth.tsx, which provides neither, so both are undefined and count as false.
   */
  function FlagsAsWritten(user: Option<Auth.User>): (bool, bool) {
    (false, false)
  }

  /** The flags as the other auth context (client/hooks/useAuth.tsx) computes them from the role. */
  function Flags(user: Option<Auth.User>): (bool, bool) {
    (user.Some? && user.value.role == "researcher", user.Some? && user.value.role == "government")
  }

  function LinksAsWritten(user: Option<Auth.User>): Option<seq<string>> {
    NavLinks(user, FlagsAsWritten(user).0, FlagsAsWritten(user).1)
  }

  function Links(user: Option<Auth.User>): Option<seq<string>> {
    NavLinks(user, Flags(user).0, Flags(user).1)
  }

  /** As written, a researcher is never offered the upload link, nor a government user the approvals. */
  lemma RoleLinksNeverShownAsWritten(user: Auth.User)
    ensures "/upload" !in LinksAsWritten(Some(user)).value
    ensures "/approvals" !in LinksAsWritten(Some(user)).value
  {
    assert "/upload" in ResearcherLinks && "/approvals" in GovernmentLinks;
  }

  /** With the flags taken from the role, each role sees exactly its own links. */
  lemma LinksFollowRole(user: Auth.User)
    ensures forall l :: l in CommonLinks ==> l in Links(Some(user)).value
    ensures forall l :: l in ResearcherLinks ==> (l in Links(Some(user)).value <==> user.role == "researcher")
    ensures forall l :: l in GovernmentLinks ==> (l in Links(Some(user)).value <==> user.role == "government")
    ensures forall l :: l in Links(Some(user)).value ==> l in CommonLinks + ResearcherLinks + GovernmentLinks
  {
  }

  /** With no user the bar renders nothing, whatever the flags. */
  lemma NoUserNoBar(isResearcher: bool, isGovernment: bool)
    ensures NavLinks(None, isResearcher, isGovernment).None?
    ensures Links(None).None? && LinksAsWritten(None).None?
  {
  }
}
