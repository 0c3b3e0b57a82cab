/**
 * `ReadMode`: the four ways a story can be shown, their raw values and
 * descriptions, and the text each one selects from a story.
 */
module ReadModes {
  import opened Wrappers
  import opened Strings
  import opened NewsModel

  datatype ReadMode = Paragraph | Snack | Dinner | GenZ

  /** `ReadMode.allCases`, in declaration order. */
  const AllCases: seq<ReadMode> := [Paragraph, Snack, Dinner, GenZ]

  /** The separator put between bullet points. */
  const Bullet: string := "\n• "

  /** `rawValue`: the case's own name. */
  function RawValue(m: ReadMode): (r: string)
    ensures FromRawValue(r) == Some(m)
  {
    match m
    case Paragraph => "Paragraph"
    case Snack => "Snack"
    case Dinner => "Dinner"
    case GenZ => "GenZ"
  }

  /** `ReadMode(rawValue:)`: the case with that raw value, if any. */
  function FromRawValue(s: string): (r: Option<ReadMode>)
    ensures r.Some? <==> s in {"Paragraph", "Snack", "Dinner", "GenZ"}
  {
    if s == "Paragraph" then Some(Paragraph)
    else if s == "Snack" then Some(Snack)
    else if s == "Dinner" then Some(Dinner)
    else if s == "GenZ" then Some(GenZ)
    else None
  }

  /** `description`: the line shown under the mode's name in the picker. */
  function Description(m: ReadMode): (r: string)
    ensures |r| > 0
  {
    match m
    case Paragraph => "Complete article in a concise format"
    case Snack => "Quick bullet points for busy readers"
    case Dinner => "Detailed breakdown of the story"
    case GenZ => "News in GenZ language and style"
  }

  /** The text shown for a story in mode `m`. */
  function GetContent(m: ReadMode, news: NewsContent): (r: string)
    ensures (m == Snack && news.keyPoints == []) || (m == Dinner && news.detailedPoints == []) ==> r == ""
    ensures m == Snack && |news.keyPoints| >= 1 ==> StartsWith(r, news.keyPoints[0])
    ensures m == Dinner && |news.detailedPoints| >= 1 ==> StartsWith(r, news.detailedPoints[0])
  {
    match m
    case Paragraph => news.paragraph
    case Snack => Join(news.keyPoints, Bullet)
    case Dinner => Join(news.detailedPoints, Bullet)
    case GenZ => news.genzVersion
  }

  /** `allCases` lists every mode exactly once. */
  lemma AllCasesComplete(m: ReadMode)
    ensures m in AllCases
    ensures forall i, j | 0 <= i < j < |AllCases| :: AllCases[i] != AllCases[j]
  {
  }

  /** Looking a mode up by its raw value inverts `RawValue`, in both directions. */
  lemma RawValueRoundTrip(m: ReadMode, s: string)
    ensures FromRawValue(RawValue(m)) == Some(m)
    ensures FromRawValue(s) == Some(m) <==> s == RawValue(m)
  {
  }

  /** Raw values and descriptions are pairwise distinct. */
  lemma DistinctStrings(m1: ReadMode, m2: ReadMode)
    requires m1 != m2
    ensures RawValue(m1) != RawValue(m2)
    ensures Description(m1) != Description(m2)
  {
  }

  /** Paragraph and GenZ modes return their field unchanged. */
  lemma PlainModes(news: NewsContent)
    ensures GetContent(Paragraph, news) == news.paragraph
    ensures GetContent(GenZ, news) == news.genzVersion
  {
  }

  /** Bullet modes: no points give "", a single point is shown without separator. */
  lemma BulletModesShort(news: NewsContent)
    ensures |news.keyPoints| == 0 ==> GetContent(Snack, news) == ""
    ensures |news.keyPoints| == 1 ==> GetContent(Snack, news) == news.keyPoints[0]
    ensures |news.detailedPoints| == 0 ==> GetContent(Dinner, news) == ""
    ensures |news.detailedPoints| == 1 ==> GetContent(Dinner, news) == news.detailedPoints[0]
  {
    if |news.keyPoints| <= 1 { JoinShort(news.keyPoints, Bullet); }
    if |news.detailedPoints| <= 1 { JoinShort(news.detailedPoints, Bullet); }
  }

  /** The joined text of n >= 1 points is their total length plus 3 per separator. */
  lemma BulletModesLength(news: NewsContent)
    ensures |news.keyPoints| >= 1 ==>
      |GetContent(Snack, news)| == TotalLength(news.keyPoints) + 3 * (|news.keyPoints| - 1)
    ensures |news.detailedPoints| >= 1 ==>
      |GetContent(Dinner, news)| == TotalLength(news.detailedPoints) + 3 * (|news.detailedPoints| - 1)
  {
    if |news.keyPoints| >= 1 { JoinLength(news.keyPoints, Bullet); }
    if |news.detailedPoints| >= 1 { JoinLength(news.detailedPoints, Bullet); }
  }

  /** No bullet point contains the separator. */
  predicate SeparatorFree(items: seq<string>) {
    forall i | 0 <= i < |items| :: !Contains(items[i], Bullet)
  }

  /** A point followed by the separator splits off as one piece. */
  lemma {:induction false} SplitAfterItem(item: string, rest: string)
    requires !Contains(item, Bullet)
    ensures Split(item + Bullet + rest, Bullet) == [item] + Split(rest, Bullet)
    decreases |item|
  {
    var s := item + Bullet + rest;
    if |item| == 0 {
      assert StartsWith(s, Bullet);
      assert s[|Bullet|..] == rest;
    } else {
      assert !StartsWith(s, Bullet) by {
        if |item| >= 3 {
          assert !OccursAt(item, Bullet, 0);
          assert s[..3] == item[..3];
        } else if |item| == 2 {
          assert s[2] == '\n';
        } else {
          assert s[1] == '\n';
        }
      }
      assert !Contains(item[1..], Bullet) by {
        if Contains(item[1..], Bullet) { ContainsTail(item, Bullet); }
      }
      assert s[1..] == item[1..] + Bullet + rest;
      SplitAfterItem(item[1..], rest);
      assert [s[0]] + item[1..] == item;
    }
  }

  /** The last point, containing no separator, is one piece. */
  lemma {:induction false} SplitSingle(item: string)
    requires !Contains(item, Bullet)
    ensures Split(item, Bullet) == [item]
    decreases |item|
  {
    if |item| > 0 {
      assert !StartsWith(item, Bullet) by {
        assert !OccursAt(item, Bullet, 0);
      }
      assert !Contains(item[1..], Bullet) by {
        if Contains(item[1..], Bullet) { ContainsTail(item, Bullet); }
      }
      SplitSingle(item[1..]);
      assert [item[0]] + item[1..] == item;
    }
  }

  /** Splitting joined points on the separator recovers them. */
  lemma {:induction false} SplitJoin(items: seq<string>)
    requires |items| >= 1 && SeparatorFree(items)
    ensures Split(Join(items, Bullet), Bullet) == items
    decreases |items|
  {
    if |items| == 1 {
      SplitSingle(items[0]);
    } else {
      assert !Contains(items[0], Bullet);
      SplitAfterItem(items[0], Join(items[1..], Bullet));
      SplitJoin(items[1..]);
    }
  }

  /** The text of a bullet mode splits back into the story's points. */
  lemma BulletModesRoundTrip(news: NewsContent)
    ensures |news.keyPoints| >= 1 && SeparatorFree(news.keyPoints) ==>
      Split(GetContent(Snack, news), Bullet) == news.keyPoints
    ensures |news.detailedPoints| >= 1 && SeparatorFree(news.detailedPoints) ==>
      Split(GetContent(Dinner, news), Bullet) == news.detailedPoints
  {
    if |news.keyPoints| >= 1 && SeparatorFree(news.keyPoints) { SplitJoin(news.keyPoints); }
    if |news.detailedPoints| >= 1 && SeparatorFree(news.detailedPoints) { SplitJoin(news.detailedPoints); }
  }
}
