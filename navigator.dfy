/**
 * The dashboard's client-side router (apps/backend/src/dash/lib/navigator.ts):
 * the current page is derived from the location's path, `navigate` moves to
 * a page and pushes its URL, and every change is announced to the
 * subscribed components.
 */
module Navigator {
  import opened Wrappers
  import opened JsText
  import opened Ordering

  datatype Page = Login | Home | Accounts

  /** `pathToPage`: the path with its first `/dash` removed (empty meaning `/`), then looked up. */
  function PathToPage(pathname: string): (page: Page)
    ensures |pathname| >= 5 && pathname[..5] == "/dash" ==>
              var rest := pathname[5..];
              page == if rest == "/login" then Login else if rest == "/accounts" then Accounts else Home
  {
    assert |pathname| >= 5 && pathname[..5] == "/dash" ==> ReplaceFirst(pathname, "/dash", "") == pathname[5..] by {
      if |pathname| >= 5 && pathname[..5] == "/dash" {
        assert pathname == "/dash" + pathname[5..];
        StripDash(pathname[5..]);
      }
    }
    var stripped := ReplaceFirst(pathname, "/dash", "");
    var path := if stripped == "" then "/" else stripped;
    if path == "/login" then Login
    else if path == "/accounts" then Accounts
    else Home
  }

  /** The page's name in the source's string union. */
  function PageName(page: Page): string
  {
    match page
    case Login => "login"
    case Home => "home"
    case Accounts => "accounts"
  }

  /** `pageToUrl`: `/dash` for the home page, `/dash/<page>` for the others. */
  function PageToUrl(page: Page): (url: string)
    ensures |url| >= 5 && url[..5] == "/dash"
    ensures url == "/dash" <==> page == Home
  {
    if page == Home then "/dash" else "/dash" + ("/" + PageName(page))
  }

  lemma StripDash(rest: string)
    ensures ReplaceFirst("/dash" + rest, "/dash", "") == rest
  {
    var s := "/dash" + rest;
    assert OccursAt(s, "/dash", 0) by {
      assert s[0..5] == "/dash";
    }
    assert IndexOf(s, "/dash") == Some(0);
    assert s[5..] == rest;
  }

  /** A path under `/dash` is the page its remainder names. */
  lemma PathUnderDash(rest: string)
    ensures PathToPage("/dash" + rest) == if rest == "/login" then Login else if rest == "/accounts" then Accounts else Home
  {
    var p := "/dash" + rest;
    assert p[..5] == "/dash" && p[5..] == rest;
  }

  /** Any other path under `/dash`, including `/dash/` itself, is the home page. */
  lemma PathToPageOfOtherPaths(rest: string)
    requires rest != "/login" && rest != "/accounts"
    ensures PathToPage("/dash" + rest) == Home
  {
    PathUnderDash(rest);
  }

  /** Every page's URL leads back to that page. */
  lemma PageUrlRoundTrip(page: Page)
    ensures PathToPage(PageToUrl(page)) == page
  {
    if page == Home {
      PathUnderDash("");
      assert "/dash" + "" == "/dash";
    } else {
      var rest := "/" + PageName(page);
      assert rest == "/login" || rest == "/accounts";
      PathUnderDash(rest);
    }
  }

  /** Different pages have different URLs. */
  lemma PageToUrlInjective(p: Page, q: Page)
    requires PageToUrl(p) == PageToUrl(q)
    ensures p == q
  {
    PageUrlRoundTrip(p);
    PageUrlRoundTrip(q);
  }

  /** What one `emit` delivers: each subscriber, in subscription order, gets the page. */
  function Notices(subs: seq<nat>, page: Page): (n: seq<(nat, Page)>)
    ensures |n| == |subs|
    ensures forall i :: 0 <= i < |subs| ==> n[i] == (subs[i], page)
  {
    if subs == [] then [] else [(subs[0], page)] + Notices(subs[1..], page)
  }

  /** No subscriber is held twice (a JavaScript `Set`). */
  predicate DistinctSubs(subs: seq<nat>)
  {
    forall i, j :: 0 <= i < j < |subs| ==> subs[i] != subs[j]
  }

  /** With distinct subscribers, each one is called exactly once, with the page, and no one else is called. */
  lemma {:induction false} NoticesOncePerSubscriber(subs: seq<nat>, page: Page, id: nat, p: Page)
    requires DistinctSubs(subs)
    ensures multiset(Notices(subs, page))[(id, p)] == if id in subs && p == page then 1 else 0
  {
    if subs != [] {
      var rest := subs[1..];
      DistinctTail(subs);
      NoticesOncePerSubscriber(rest, page, id, p);
      NoticesCons(subs, page);
    }
  }

  /** The test `subs.delete(id)` keeps: every subscriber but `id`. */
  function Other(id: nat): nat -> bool
  {
    (other: nat) => other != id
  }

  lemma DistinctTail(subs: seq<nat>)
    requires subs != [] && DistinctSubs(subs)
    ensures DistinctSubs(subs[1..]) && subs[0] !in subs[1..]
  {
    var rest := subs[1..];
    forall i, j | 0 <= i < j < |rest| ensures rest[i] != rest[j] {
      assert rest[i] == subs[i + 1] && rest[j] == subs[j + 1];
    }
  }

  lemma NoticesCons(subs: seq<nat>, page: Page)
    requires subs != []
    ensures multiset(Notices(subs, page)) == multiset{(subs[0], page)} + multiset(Notices(subs[1..], page))
    ensures forall id :: id in subs <==> id == subs[0] || id in subs[1..]
  {
    assert subs == [subs[0]] + subs[1..];
  }

  /**
   * The module's state: the current page, the URLs pushed onto the browser
   * history, the subscribed components (by id, in subscription order) and the
   * calls made to them so far.
   */
  class Router {
    var page: Page
    var history: seq<string>
    var subs: seq<nat>
    var delivered: seq<(nat, Page)>

    /** The page at load time is the page of the location's path. */
    constructor (pathname: string)
      ensures page == PathToPage(pathname)
      ensures history == [] && subs == [] && delivered == []
    {
      page := PathToPage(pathname);
      history := [];
      subs := [];
      delivered := [];
    }

    predicate Valid()
      reads this
    {
      DistinctSubs(subs)
    }

    /** `subs.add(fn)`: a component already subscribed is not added again. */
    method Subscribe(id: nat)
      requires Valid()
      modifies this`subs
      ensures Valid()
      ensures subs == if id in old(subs) then old(subs) else old(subs) + [id]
    {
      if id !in subs {
        subs := subs + [id];
      }
    }

    /** `subs.delete(fn)`: the component is dropped, the others keep their order. */
    method Unsubscribe(id: nat)
      requires Valid()
      modifies this`subs
      ensures Valid()
      ensures subs == Filter(old(subs), Other(id))
      ensures id !in subs
      ensures forall other :: other != id ==> (other in subs <==> other in old(subs))
    {
      var all := subs;
      var kept: seq<nat> := [];
      var i := 0;
      while i < |all|
        invariant 0 <= i <= |all|
        invariant kept == Filter(all[..i], Other(id))
      {
        if all[i] != id {
          kept := kept + [all[i]];
        }
        assert all[..i + 1] == all[..i] + [all[i]];
        FilterSnoc(all[..i], all[i], Other(id));
        i := i + 1;
      }
      assert all[..i] == all;
      assert Distinct(all);
      FilterDistinct(all, Other(id));
      subs := kept;
    }

    /** `emit`: every subscriber is called once with the current page, in order. */
    method Emit()
      modifies this`delivered
      ensures delivered == old(delivered) + Notices(subs, page)
    {
      var i := 0;
      while i < |subs|
        invariant 0 <= i <= |subs|
        invariant delivered == old(delivered) + Notices(subs[..i], page)
      {
        delivered := delivered + [(subs[i], page)];
        i := i + 1;
        assert Notices(subs[..i], page) == Notices(subs[..i - 1], page) + [(subs[i - 1], page)];
      }
      assert subs[..i] == subs;
    }

    /** `navigate(next)`: the page becomes `next`, its URL is pushed, and every subscriber hears of it. */
    method Navigate(next: Page)
      modifies this`page, this`history, this`delivered
      ensures page == next
      ensures history == old(history) + [PageToUrl(next)]
      ensures delivered == old(delivered) + Notices(subs, next)
    {
      page := next;
      history := history + [PageToUrl(next)];
      Emit();
    }

    /** The `popstate` listener: the page is read again from the location, and announced. */
    method PopState(pathname: string)
      modifies this`page, this`delivered
      ensures page == PathToPage(pathname)
      ensures delivered == old(delivered) + Notices(subs, page)
    {
      page := PathToPage(pathname);
      Emit();
    }
  }
}
