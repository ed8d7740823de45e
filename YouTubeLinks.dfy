/**
 * The curated YouTube aarti links and the three filters over them. Opening
 * a link (a browser call) is not modelled.
 */
module YouTubeLinks {
  import opened JsCore
  import opened JsArray

  datatype LinkType = Aarti | Bhajan | Chalisa | Mantra

  datatype YouTubeLink = YouTubeLink(
    id: string,
    deityId: string,
    title: string,
    titleHindi: string,
    linkType: LinkType,
    youtubeUrl: string,
    description: Option<string>)

  const Links: seq<YouTubeLink> := [
    YouTubeLink("ganesha-aarti-1", "ganesha", "Ganesh Aarti - Jai Ganesh Deva", "जय गणेश देवा आरती", Aarti,
      "https://youtu.be/BhwOproElxU", Some("Traditional Ganesh Aarti sung during puja")),
    YouTubeLink("shiva-aarti-1", "shiva", "Shiv Aarti - Om Jai Shiv Omkara", "ॐ जय शिव ओमकारा आरती", Aarti,
      "https://youtu.be/AETFvQonfV8", Some("Sacred Shiva Aarti for morning and evening worship")),
    YouTubeLink("vishnu-aarti-1", "vishnu", "Vishnu Aarti - Om Jai Jagdish Hare", "ॐ जय जगदीश हरे आरती", Aarti,
      "https://youtu.be/SyqgAt-T0iQ", Some("Divine Vishnu Aarti for daily worship")),
    YouTubeLink("krishna-aarti-1", "krishna", "Krishna Aarti - Aarti Kunj Bihari Ki", "आरती कुंज बिहारी की", Aarti,
      "https://youtu.be/J5cllhBiAV0", Some("Beautiful Krishna Aarti for devotees")),
    YouTubeLink("hanuman-aarti-1", "hanuman", "Hanuman Aarti - Aarti Keeje Hanuman Lala Ki", "आरती कीजै हनुमान लला की", Aarti,
      "https://youtu.be/HAUxmNFkPfk", Some("Powerful Hanuman Aarti for strength and protection")),
    YouTubeLink("durga-aarti-1", "durga", "Durga Aarti - Jai Ambe Gauri", "जय अम्बे गौरी आरती", Aarti,
      "https://youtu.be/QKf_JPbN6Lw", Some("Sacred Durga Aarti for Navratri and daily worship")),
    YouTubeLink("lakshmi-aarti-1", "lakshmi", "Lakshmi Aarti - Om Jai Lakshmi Mata", "ॐ जय लक्ष्मी माता आरती", Aarti,
      "https://youtu.be/T9K8aBm31Hc", Some("Auspicious Lakshmi Aarti for prosperity")),
    YouTubeLink("saraswati-aarti-1", "saraswati", "Saraswati Aarti - Om Jai Saraswati Mata", "ॐ जय सरस्वती माता आरती", Aarti,
      "https://youtu.be/GKMSZ8SN0IA", Some("Divine Saraswati Aarti for knowledge and wisdom")),
    YouTubeLink("saibaba-aarti-1", "saibaba", "Sai Baba Aarti - Aarti Sai Baba", "आरती साईं बाबा", Aarti,
      "https://youtu.be/NE3SWh9_vR4", Some("Sacred Shirdi Sai Baba Aarti")),
    YouTubeLink("rama-aarti-1", "rama", "Ram Aarti - Aarti Shri Ramayan Ji Ki", "आरती श्री रामायण जी की", Aarti,
      "https://youtu.be/EMO1AT1UQf0", Some("Traditional Ram Aarti for devotees")),
    YouTubeLink("santoshi-aarti-1", "santoshi", "Santoshi Mata Aarti", "संतोषी माता आरती", Aarti,
      "https://youtu.be/XWKtCrBKdOo", Some("Blessed Santoshi Mata Aarti for Friday worship"))
  ]

  /** The links of one deity, exactly (case-sensitive). */
  function OfDeity(links: seq<YouTubeLink>, deityId: string): (r: seq<YouTubeLink>)
    ensures IsSubsequence(r, links) && |r| <= |links|
    ensures forall x :: x in r <==> x in links && x.deityId == deityId
  {
    var p := (l: YouTubeLink) => l.deityId == deityId;
    FilterIsSubsequence(links, p);
    FilterMembers(links, p);
    Filter(links, p)
  }

  /** The links of one type. */
  function OfType(links: seq<YouTubeLink>, t: LinkType): (r: seq<YouTubeLink>)
    ensures IsSubsequence(r, links) && |r| <= |links|
    ensures forall x :: x in r <==> x in links && x.linkType == t
  {
    var p := (l: YouTubeLink) => l.linkType == t;
    FilterIsSubsequence(links, p);
    FilterMembers(links, p);
    Filter(links, p)
  }

  /** `getYouTubeLinksByDeity`: the table's links whose deity id is exactly `deityId`. */
  function GetYouTubeLinksByDeity(deityId: string): (r: seq<YouTubeLink>)
    ensures IsSubsequence(r, Links)
    ensures forall x :: x in r <==> x in Links && x.deityId == deityId
  {
    OfDeity(Links, deityId)
  }

  /** `getYouTubeLinksByType`: the table's links of type `t`. */
  function GetYouTubeLinksByType(t: LinkType): (r: seq<YouTubeLink>)
    ensures IsSubsequence(r, Links)
    ensures forall x :: x in r <==> x in Links && x.linkType == t
  {
    OfType(Links, t)
  }

  /** `getAartiYouTubeLinks`: the table's aarti links, by the same filter. */
  function GetAartiYouTubeLinks(): (r: seq<YouTubeLink>)
    ensures IsSubsequence(r, Links)
    ensures forall x :: x in r <==> x in Links && x.linkType == Aarti
  {
    OfType(Links, Aarti)
  }

  /** Filtering a list whose links are all of one type keeps it whole for that type and empties it for the others. */
  lemma {:induction false} UniformType(links: seq<YouTubeLink>, t: LinkType, u: LinkType)
    requires forall i :: 0 <= i < |links| ==> links[i].linkType == t
    ensures OfType(links, u) == if u == t then links else []
  {
    if u == t {
      AllKept(links, (l: YouTubeLink) => l.linkType == u);
    } else {
      NoneKept(links, (l: YouTubeLink) => l.linkType == u);
    }
  }

  /** Filtering by a deity that only the link at `i` carries keeps just that link. */
  lemma {:induction false} SoleDeity(links: seq<YouTubeLink>, i: nat)
    requires i < |links|
    requires forall j :: 0 <= j < |links| && j != i ==> links[j].deityId != links[i].deityId
    ensures OfDeity(links, links[i].deityId) == [links[i]]
  {
    var d := links[i].deityId;
    var p := (l: YouTubeLink) => l.deityId == d;
    assert forall j :: 0 <= j < |links| && j != i ==> !p(links[j]);
    FilterSingle(links, p, i);
  }

  /** Filtering by a deity no link carries keeps nothing. */
  lemma {:induction false} AbsentDeity(links: seq<YouTubeLink>, deityId: string)
    requires forall i :: 0 <= i < |links| ==> links[i].deityId != deityId
    ensures OfDeity(links, deityId) == []
  {
    var p := (l: YouTubeLink) => l.deityId == deityId;
    assert forall i :: 0 <= i < |links| ==> !p(links[i]);
    NoneKept(links, p);
  }

  /** Every link in the table is an aarti. */
  lemma AllAartis()
    ensures forall i :: 0 <= i < |Links| ==> Links[i].linkType == Aarti
  {
    forall i | 0 <= i < |Links|
      ensures Links[i].linkType == Aarti
    {
      assert i in {0, 1, 2, 3, 4, 5, 6, 7, 8, 9, 10};
    }
  }

  /** So the type filter keeps the whole table for aarti and finds nothing for every other type. */
  lemma OnlyAartis(t: LinkType)
    ensures GetYouTubeLinksByType(t) == if t == Aarti then Links else []
  {
    AllAartis();
    UniformType(Links, Aarti, t);
  }

  /** The aarti list is the type filter's answer for aarti, which is the whole table. */
  lemma AartiListIsTable()
    ensures GetAartiYouTubeLinks() == GetYouTubeLinksByType(Aarti) == Links
  {
    OnlyAartis(Aarti);
  }

  /** The index of a deity id in the table, read back; -1 for any other string. */
  function DeityIndex(deityId: string): int {
    if deityId == "ganesha" then 0 else if deityId == "shiva" then 1 else if deityId == "vishnu" then 2
    else if deityId == "krishna" then 3 else if deityId == "hanuman" then 4 else if deityId == "durga" then 5
    else if deityId == "lakshmi" then 6 else if deityId == "saraswati" then 7 else if deityId == "saibaba" then 8
    else if deityId == "rama" then 9 else if deityId == "santoshi" then 10 else -1
  }

  /** Each link's deity id reads back as the link's position. */
  lemma DeityAt(i: int)
    requires 0 <= i < |Links|
    ensures DeityIndex(Links[i].deityId) == i
  {
    assert i in {0, 1, 2, 3, 4, 5, 6, 7, 8, 9, 10};
  }

  /** A string that reads back as a position is the deity id of the link there. */
  lemma DeityIndexInverse(deityId: string)
    requires DeityIndex(deityId) >= 0
    ensures DeityIndex(deityId) < |Links| && Links[DeityIndex(deityId)].deityId == deityId
  {
  }

  /**
   * The deity filter finds exactly one link for each of the table's deity
   * ids, spelled exactly, and nothing for any other string: unlike the
   * chapter lookup it does not lower-case, so "Ganesha" finds nothing.
   */
  lemma ByDeityFinds(deityId: string)
    ensures DeityIndex(deityId) >= 0 ==> GetYouTubeLinksByDeity(deityId) == [Links[DeityIndex(deityId)]]
    ensures DeityIndex(deityId) < 0 ==> GetYouTubeLinksByDeity(deityId) == []
  {
    var k := DeityIndex(deityId);
    forall j | 0 <= j < |Links| && j != k
      ensures Links[j].deityId != deityId
    {
      DeityAt(j);
    }
    if k >= 0 {
      DeityIndexInverse(deityId);
      SoleDeity(Links, k);
    } else {
      AbsentDeity(Links, deityId);
    }
  }
}


/** How often the link filters keep each link. */
module YouTubeLinkCounts {
  import opened JsArray
  import opened YouTubeLinks

  /**
   * The filters keep each link as often as the list holds it, or not at all:
   * with the subsequence property, exactly the matching links in list order.
   */
  lemma ExactMultiplicity(links: seq<YouTubeLink>, deityId: string, t: LinkType, x: YouTubeLink)
    ensures Count(OfDeity(links, deityId), x) == if x.deityId == deityId then Count(links, x) else 0
    ensures Count(OfType(links, t), x) == if x.linkType == t then Count(links, x) else 0
  {
    FilterCount(links, (l: YouTubeLink) => l.deityId == deityId, x);
    FilterCount(links, (l: YouTubeLink) => l.linkType == t, x);
  }
}
