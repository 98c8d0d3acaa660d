/** The Android account facade as its tests pin it down
    (components/signin/core/browser/android/junit/src/org/chromium/components/signin/test/AccountManagerFacadeTest.java):
    name matching through a canonical form, the account list in insertion
    order, and the profile-data map. */
module AccountManagerFacade {
  import opened Base

  const GmailDomain := "gmail.com"

  /** Lower-casing of ASCII letters. */
  function LowerChar(c: char): (r: char)
    ensures 'A' <= c <= 'Z' ==> r as int == c as int + 32
    ensures !('A' <= c <= 'Z') ==> r == c
  {
    if 'A' <= c <= 'Z' then (c as int + 32) as char else c
  }

  function Lower(s: string): (r: string)
    ensures |r| == |s|
    ensures forall i :: 0 <= i < |s| ==> r[i] == LowerChar(s[i])
  {
    seq(|s|, i requires 0 <= i < |s| => LowerChar(s[i]))
  }

  lemma LowerIdempotent(s: string)
    ensures Lower(Lower(s)) == Lower(s)
  {
  }

  lemma LowerAppend(a: string, b: string)
    ensures Lower(a + b) == Lower(a) + Lower(b)
  {
  }

  /** The string with every '.' removed. */
  function StripDots(s: string): (r: string)
    ensures '.' !in r
    ensures |r| <= |s|
  {
    if s == [] then []
    else if s[0] == '.' then StripDots(s[1..])
    else [s[0]] + StripDots(s[1..])
  }

  /** Removing dots and lower-casing can be done in either order. */
  lemma {:induction false} StripDotsLower(s: string)
    ensures StripDots(Lower(s)) == Lower(StripDots(s))
  {
    if s != [] {
      assert Lower(s)[1..] == Lower(s[1..]);
      StripDotsLower(s[1..]);
      if s[0] != '.' {
        LowerAppend([s[0]], StripDots(s[1..]));
      }
    }
  }

  lemma {:induction false} StripDotsAppend(a: string, b: string)
    ensures StripDots(a + b) == StripDots(a) + StripDots(b)
  {
    if a == [] {
      assert a + b == b;
    } else {
      assert (a + b)[0] == a[0];
      assert (a + b)[1..] == a[1..] + b;
      StripDotsAppend(a[1..], b);
    }
  }

  /** The position of the first `c` in `s`. */
  function IndexOf(s: string, c: char): (r: Option<nat>)
    ensures r.Some? ==> r.value < |s| && s[r.value] == c && c !in s[..r.value]
    ensures r.None? ==> c !in s
  {
    if s == [] then None
    else if s[0] == c then Some(0)
    else match IndexOf(s[1..], c)
      case Some(i) =>
        assert s[..i + 1] == [s[0]] + s[1..][..i];
        Some(i + 1)
      case None => None
  }

  /** A prefix free of `c` moves the first `c` by its length. */
  lemma {:induction false} IndexOfAfter(a: string, b: string, c: char)
    requires c !in a
    ensures IndexOf(a + b, c) == match IndexOf(b, c) case Some(i) => Some(|a| + i) case None => None
  {
    if a == [] {
      assert a + b == b;
    } else {
      assert (a + b)[0] == a[0] != c;
      assert (a + b)[1..] == a[1..] + b;
      IndexOfAfter(a[1..], b, c);
    }
  }

  /** The position of the only '@' of a name, if it has exactly one. */
  function SingleAt(name: string): (r: Option<nat>)
    ensures r.Some? ==> r.value < |name| && name[r.value] == '@'
    ensures r.Some? ==> '@' !in name[..r.value] && '@' !in name[r.value + 1..]
  {
    match IndexOf(name, '@')
    case Some(i) => if '@' in name[i + 1..] then None else Some(i)
    case None => None
  }

  /** The canonical form under which names are compared: lower case, and
      for a gmail.com address no dots in the part before '@'. */
  function Canonicalize(name: string): (r: string)
    ensures forall k :: 0 <= k < |r| ==> !('A' <= r[k] <= 'Z')
    ensures |r| <= |name|
  {
    match SingleAt(name)
    case Some(at) =>
      var local := name[..at];
      var domain := name[at + 1..];
      if Lower(domain) == GmailDomain then Lower(StripDots(local)) + "@" + GmailDomain
      else Lower(name)
    case None => Lower(name)
  }

  /** Whether two names denote the same account; names that differ only in
      case always do. */
  predicate SameAccount(a: string, b: string)
    ensures Lower(a) == Lower(b) ==> SameAccount(a, b)
  {
    CanonicalLower(a);
    CanonicalLower(b);
    Canonicalize(a) == Canonicalize(b)
  }

  lemma {:induction false} IndexOfLower(name: string)
    ensures IndexOf(Lower(name), '@') == IndexOf(name, '@')
  {
    if name != [] {
      assert Lower(name)[1..] == Lower(name[1..]);
      IndexOfLower(name[1..]);
    }
  }

  lemma SingleAtLower(name: string)
    ensures SingleAt(Lower(name)) == SingleAt(name)
  {
    IndexOfLower(name);
    match IndexOf(name, '@')
    case Some(i) =>
      assert Lower(name)[i + 1..] == Lower(name[i + 1..]);
      assert '@' in name[i + 1..] <==> '@' in Lower(name[i + 1..]);
    case None =>
  }

  /** Case differences never matter. */
  lemma CaseInsensitive(name: string)
    ensures SameAccount(Lower(name), name)
  {
    CanonicalLower(name);
  }

  /** The canonical form ignores case. */
  lemma CanonicalLower(name: string)
    ensures Canonicalize(Lower(name)) == Canonicalize(name)
  {
    SingleAtLower(name);
    match SingleAt(name)
    case Some(at) =>
      var lowered := Lower(name);
      assert lowered[..at] == Lower(name[..at]);
      assert lowered[at + 1..] == Lower(name[at + 1..]);
      LowerIdempotent(name[at + 1..]);
      LowerIdempotent(name);
      StripDotsLower(name[..at]);
      LowerIdempotent(StripDots(name[..at]));
    case None =>
      LowerIdempotent(name);
  }

  /** A character absent from a string is absent once dots are removed. */
  lemma {:induction false} StripDotsKeepsAbsent(s: string, c: char)
    requires c !in s
    ensures c !in StripDots(s)
  {
    if s != [] {
      assert c !in s[1..];
      StripDotsKeepsAbsent(s[1..], c);
    }
  }

  /** A canonical form is its own canonical form: every name denotes the
      same account as its canonical form. */
  lemma CanonicalIdempotent(name: string)
    ensures Canonicalize(Canonicalize(name)) == Canonicalize(name)
  {
    match SingleAt(name)
    case Some(at) =>
      var local := name[..at];
      if Lower(name[at + 1..]) == GmailDomain {
        var stripped := StripDots(local);
        var canonicalLocal := Lower(stripped);
        StripDotsKeepsAbsent(local, '@');
        assert '@' !in canonicalLocal by {
          forall k | 0 <= k < |canonicalLocal|
            ensures canonicalLocal[k] != '@'
          {
            assert stripped[k] != '@';
          }
        }
        CanonicalGmail(canonicalLocal);
        StripDotsLower(stripped);
        StripDotsNoDots(stripped);
        LowerIdempotent(stripped);
      } else {
        CanonicalLower(name);
      }
    case None =>
      CanonicalLower(name);
  }

  /** The canonical form of a plain gmail address. */
  lemma GmailDomainPlain()
    ensures Lower(GmailDomain) == GmailDomain && '@' !in GmailDomain
  {
  }

  lemma SingleAtGmail(local: string)
    requires '@' !in local
    ensures SingleAt(local + "@" + GmailDomain) == Some(|local|)
  {
    var name := local + "@" + GmailDomain;
    var tail := "@" + GmailDomain;
    assert name == local + tail;
    IndexOfAfter(local, tail, '@');
    assert IndexOf(tail, '@') == Some(0);
    GmailDomainPlain();
    assert name[|local| + 1..] == GmailDomain;
  }

  lemma CanonicalGmail(local: string)
    requires '@' !in local
    ensures Canonicalize(local + "@" + GmailDomain) == Lower(StripDots(local)) + "@" + GmailDomain
  {
    var name := local + "@" + GmailDomain;
    SingleAtGmail(local);
    assert name[..|local|] == local;
    assert name[|local| + 1..] == GmailDomain;
    GmailDomainPlain();
  }

  /** gmail addresses that differ only by dots before '@' are the same
      account. */
  lemma GmailDotsInsensitive(a: string, b: string)
    requires '@' !in a && '@' !in b && StripDots(a) == StripDots(b)
    ensures SameAccount(a + "@" + GmailDomain, b + "@" + GmailDomain)
  {
    CanonicalGmail(a);
    CanonicalGmail(b);
  }

  /** gmail addresses match when their local parts agree once dots are
      removed and case is folded. */
  lemma GmailMatch(a: string, b: string)
    requires '@' !in a && '@' !in b && Lower(StripDots(a)) == Lower(StripDots(b))
    ensures SameAccount(a + "@" + GmailDomain, b + "@" + GmailDomain)
  {
    CanonicalGmail(a);
    CanonicalGmail(b);
  }

  /** A string without dots is its own dot-stripped form. */
  lemma {:induction false} StripDotsNoDots(s: string)
    requires '.' !in s
    ensures StripDots(s) == s
  {
    if s != [] {
      assert s == [s[0]] + s[1..];
      StripDotsNoDots(s[1..]);
    }
  }

  /** A dot dropped from between two parts. */
  lemma StripDotsBetween(a: string, b: string)
    ensures StripDots(a + "." + b) == StripDots(a) + StripDots(b)
  {
    StripDotsAppend(a, "." + b);
    assert a + "." + b == a + ("." + b);
    assert ("." + b)[1..] == b;
  }

  lemma CanonicalLocalParts()
    ensures Lower(StripDots("Test")) == "test" && Lower(StripDots("test")) == "test"
    ensures Lower(StripDots("te.st")) == "test"
  {
    StripDotsNoDots("Test");
    StripDotsNoDots("test");
    StripDotsNoDots("te");
    StripDotsNoDots("st");
    StripDotsBetween("te", "st");
    assert "te.st" == "te" + "." + "st";
  }

  lemma DottedTestme()
    ensures StripDots("test.me") == "testme"
  {
    StripDotsNoDots("test");
    StripDotsNoDots("me");
    StripDotsBetween("test", "me");
    assert "test.me" == "test" + "." + "me";
  }

  /** Two dots dropped from between three dot-free parts. */
  lemma StripTwoDots(a: string, b: string, c: string)
    requires '.' !in a && '.' !in b && '.' !in c
    ensures StripDots(a + "." + b + "." + c) == a + b + c
  {
    var bc := b + "." + c;
    calc {
      StripDots(a + "." + b + "." + c);
      { assert a + "." + b + "." + c == a + "." + bc; }
      StripDots(a + "." + bc);
      { StripDotsBetween(a, bc); }
      StripDots(a) + StripDots(bc);
      { StripDotsBetween(b, c); StripDotsNoDots(a); StripDotsNoDots(b); StripDotsNoDots(c); }
      a + (b + c);
    }
    assert a + (b + c) == a + b + c;
  }

  lemma TwiceDottedTestme()
    ensures StripDots("te.st.me") == "testme"
  {
    StripTwoDots("te", "st", "me");
    assert "te.st.me" == "te" + "." + "st" + "." + "me";
  }

  lemma LowerTestme()
    ensures Lower("testme") == "testme" && Lower("Testme") == "testme"
  {
    assert Lower("Testme")[0] == 't';
  }

  lemma NonCanonicalLocalParts()
    ensures Lower(StripDots("test.me")) == "testme" && Lower(StripDots("testme")) == "testme"
    ensures Lower(StripDots("Testme")) == "testme" && Lower(StripDots("te.st.me")) == "testme"
  {
    StripDotsNoDots("testme");
    StripDotsNoDots("Testme");
    DottedTestme();
    TwiceDottedTestme();
    LowerTestme();
  }

  /** The names testCanonicalAccount expects to match "test@gmail.com". */
  lemma CanonicalAccountNames()
    ensures SameAccount("Test" + "@" + GmailDomain, "test" + "@" + GmailDomain)
    ensures SameAccount("te.st" + "@" + GmailDomain, "test" + "@" + GmailDomain)
  {
    CanonicalLocalParts();
    GmailMatch("Test", "test");
    GmailMatch("te.st", "test");
  }

  /** The names testNonCanonicalAccount expects to match "test.me@gmail.com". */
  lemma NonCanonicalAccountNames()
    ensures SameAccount("testme" + "@" + GmailDomain, "test.me" + "@" + GmailDomain)
    ensures SameAccount("Testme" + "@" + GmailDomain, "test.me" + "@" + GmailDomain)
    ensures SameAccount("te.st.me" + "@" + GmailDomain, "test.me" + "@" + GmailDomain)
  {
    NonCanonicalLocalParts();
    GmailMatch("testme", "test.me");
    GmailMatch("Testme", "test.me");
    GmailMatch("te.st.me", "test.me");
  }

  /** The list without one account, the others in their order. */
  function Without(accounts: seq<string>, name: string): (r: seq<string>)
    ensures forall a :: a in r <==> a in accounts && a != name
    ensures |r| <= |accounts|
  {
    if accounts == [] then []
    else if accounts[0] == name then Without(accounts[1..], name)
    else [accounts[0]] + Without(accounts[1..], name)
  }

  lemma {:induction false} WithoutAbsent(accounts: seq<string>, name: string)
    requires name !in accounts
    ensures Without(accounts, name) == accounts
  {
    if accounts != [] {
      WithoutAbsent(accounts[1..], name);
    }
  }

  /** Removing an account keeps the accounts before and after it in order. */
  lemma {:induction false} WithoutSplice(before: seq<string>, name: string, after: seq<string>)
    requires name !in before && name !in after
    ensures Without(before + [name] + after, name) == before + after
  {
    if before == [] {
      assert ([] + [name] + after)[1..] == after;
      WithoutAbsent(after, name);
    } else {
      assert (before + [name] + after)[1..] == before[1..] + [name] + after;
      WithoutSplice(before[1..], name, after);
    }
  }

  /** What the profile-data source holds for an account. */
  datatype ProfileData = ProfileData(accountName: string, avatar: Option<seq<Byte>>, fullName: string, givenName: string)

  class AccountManagerFacade {
    /** The accounts, in the order they were added. */
    var accounts: seq<string>
    var profileData: map<string, ProfileData>

    constructor ()
      ensures accounts == [] && profileData == map[]
    {
      accounts := [];
      profileData := map[];
    }

    /** getGoogleAccounts: the accounts in the order they were added, each
        found by hasAccountForName. */
    function GetGoogleAccounts(): seq<string>
      reads this
      ensures forall a :: a in GetGoogleAccounts() ==> HasAccountForName(a)
    {
      accounts
    }

    /** hasAccountForName: some account matches under the canonical form. */
    predicate HasAccountForName(name: string)
      reads this
      ensures name in accounts ==> HasAccountForName(name)
      ensures Lower(name) in accounts ==> HasAccountForName(name)
    {
      assert name in accounts ==> SameAccount(name, name);
      assert Lower(name) in accounts ==> SameAccount(Lower(name), name) by {
        LowerIdempotent(name);
      }
      exists a :: a in accounts && SameAccount(a, name)
    }

    /** Adding an account holder: a new account goes to the end; an account
        already held stays where it is. */
    method AddAccount(name: string)
      modifies this`accounts
      ensures name in old(accounts) ==> accounts == old(accounts)
      ensures name !in old(accounts) ==> accounts == old(accounts) + [name]
      ensures HasAccountForName(name)
    {
      if name !in accounts {
        accounts := accounts + [name];
      }
      assert name in accounts && SameAccount(name, name);
    }

    /** Removing an account holder. */
    method RemoveAccount(name: string)
      modifies this`accounts
      ensures accounts == Without(old(accounts), name)
    {
      accounts := Without(accounts, name);
    }

    /** setProfileData: data stores exactly that entry, None removes it. */
    method SetProfileData(name: string, data: Option<ProfileData>)
      modifies this`profileData
      ensures data.Some? ==> profileData == old(profileData)[name := data.value]
      ensures data.None? ==> profileData == old(profileData) - {name}
    {
      if data.Some? {
        profileData := profileData[name := data.value];
      } else {
        profileData := profileData - {name};
      }
    }
  }

  /** A new account is matched by every name with the same canonical form. */
  lemma MatchedAfterAdd(accounts: seq<string>, added: string, name: string)
    requires SameAccount(added, name)
    ensures exists a :: a in accounts + [added] && SameAccount(a, name)
  {
    assert added in accounts + [added];
  }
}
