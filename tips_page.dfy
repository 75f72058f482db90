/** The `/tips` page's derivations from the tips the API returned: the subscriber banner, the
    three category tabs and the displayed action. */
module TipsPage {
  import opened Common
  import opened Strings
  import Seqs
  import opened TipModel
  import opened TipsRoute

  /** The page state after the fetch: the tips, and whether the subscriber view is shown. */
  datatype PageState = PageState(tips: seq<Tip>, isSubscribed: bool)

  predicate AnyDemo(tips: seq<Tip>) {
    exists i :: 0 <= i < |tips| && tips[i].isDemo
  }

  /** `res.ok`: a status in the 2xx range. */
  predicate Ok<B>(resp: Response<B>) {
    200 <= resp.status <= 299
  }

  /** A failed fetch keeps the initial state: no tips and the demo banner. */
  function Load(resp: Response<TipsBody>): (s: PageState)
    ensures s.isSubscribed <==> Ok(resp) && resp.body.TipList? && |resp.body.tips| > 0 && !AnyDemo(resp.body.tips)
    ensures Ok(resp) && resp.body.TipList? ==> s.tips == resp.body.tips
    ensures !Ok(resp) ==> s == PageState([], false)
  {
    if Ok(resp) && resp.body.TipList? then
      var data := resp.body.tips;
      PageState(data, |data| > 0 && !AnyDemo(data))
    else PageState([], false)
  }

  /** An active subscriber whose category holds a demo tip is shown the demo banner. */
  lemma ActiveWithDemoSeesBanner(users: seq<UserModel.User>, tips: seq<Tip>, now: Time,
                                 session: Session, t: Tip)
    requires Get(session, users, tips, now).status == 200
    requires t in Get(session, users, tips, now).body.tips && t.isDemo
    ensures !Load(Get(session, users, tips, now)).isSubscribed
  {
    var data := Get(session, users, tips, now).body.tips;
    var k :| 0 <= k < |data| && data[k] == t;
  }

  /** The tab for one category. */
  function Tab(tips: seq<Tip>, c: Category): seq<Tip> {
    Seqs.Filter(tips, (t: Tip) => t.category == CategoryName(c))
  }

  /** The three tabs partition the tips of the three categories; any other category is in none. */
  lemma TabsPartition(tips: seq<Tip>, t: Tip)
    requires t in tips
    ensures ParseCategory(t.category).Some? ==> t in Tab(tips, ParseCategory(t.category).value)
    ensures forall c: Category :: t in Tab(tips, c) <==> ParseCategory(t.category) == Some(c)
    ensures ParseCategory(t.category).None? ==>
              t !in Tab(tips, Equity) && t !in Tab(tips, Futures) && t !in Tab(tips, Options)
  {
  }

  /** The tab sizes add up to the number of tips whose category is one of the three. */
  lemma {:induction false} TabSizes(tips: seq<Tip>)
    ensures |Tab(tips, Equity)| + |Tab(tips, Futures)| + |Tab(tips, Options)|
            == |Seqs.Filter(tips, (t: Tip) => ParseCategory(t.category).Some?)|
  {
    if tips != [] {
      TabSizes(tips[1..]);
    }
  }

  /** `action.toUpperCase() === "SELL" ? "SELL" : "BUY"`. */
  function DisplayAction(action: string): (shown: string)
    ensures shown == "SELL" <==> ToUpper(action) == "SELL"
    ensures shown == "SELL" || shown == "BUY"
  {
    if ToUpper(action) == "SELL" then "SELL" else "BUY"
  }

  /** "sell" in any letter case shows as SELL; "WATCH" shows as BUY. */
  lemma DisplayActionExamples()
    ensures DisplayAction("sell") == "SELL" && DisplayAction("Sell") == "SELL"
    ensures DisplayAction("WATCH") == "BUY"
  {
    assert ToUpper("sell") == "SELL";
    assert ToUpper("Sell") == "SELL";
    assert |ToUpper("WATCH")| == 5;
  }
}
