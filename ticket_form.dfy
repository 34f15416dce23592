/** src/components/TicketForm.tsx: reading the ticket numbers typed into the form
    and grouping the province picker by region. */
module TicketForm {
  import opened Base
  import opened Text
  import opened Lottery

  /** `[\n,]`. */
  predicate IsBreak(c: char)
  {
    c == '\n' || c == ','
  }

  /** `s.split(/[\n,]+/)`: the pieces between runs of line breaks and commas,
      with an empty piece before a leading run and after a trailing one. */
  function SplitRuns(s: string): (r: seq<string>)
    ensures |r| >= 1
    decreases |s|
  {
    var i := Span(s, 0, c => !IsBreak(c));
    if i == |s| then [s]
    else
      var j := Span(s, i, IsBreak);
      [s[..i]] + SplitRuns(s[j..])
  }

  /** No line break or comma in the string. */
  predicate NoBreak(n: string)
  {
    forall i :: 0 <= i < |n| ==> !IsBreak(n[i])
  }

  /** No piece of the split holds a line break or a comma. */
  lemma {:induction false} SplitRunsNoBreak(s: string)
    ensures forall k :: 0 <= k < |SplitRuns(s)| ==> NoBreak(SplitRuns(s)[k])
    decreases |s|
  {
    var i := Span(s, 0, c => !IsBreak(c));
    if i < |s| {
      var j := Span(s, i, IsBreak);
      SplitRunsNoBreak(s[j..]);
      var rest := SplitRuns(s[j..]);
      assert SplitRuns(s) == [s[..i]] + rest;
      forall k | 1 <= k < |rest| + 1
        ensures NoBreak(SplitRuns(s)[k])
      {
        assert SplitRuns(s)[k] == rest[k - 1];
      }
    }
  }

  /** `.map(n => n.trim())`. */
  function TrimAll(xs: seq<string>): (r: seq<string>)
    ensures |r| == |xs|
  {
    seq(|xs|, k requires 0 <= k < |xs| => Trim(xs[k]))
  }

  /** Long enough to be a ticket number. */
  predicate LongEnough(n: string)
  {
    |n| >= 2
  }

  /** The pieces trimmed, the short ones dropped. */
  function Entries(pieces: seq<string>): seq<string>
  {
    Filter(TrimAll(pieces), LongEnough)
  }

  /** `numberList` in `handleSubmit`. */
  function NumberList(numbers: string): seq<string>
  {
    Entries(SplitRuns(numbers))
  }

  /** What `handleSubmit` hands to `onSubmit`. */
  datatype Submission = Submission(date: string, province: string, numbers: seq<string>)

  /** `handleSubmit`: nothing is submitted when no number is left. */
  function HandleSubmit(date: string, province: string, numbers: string): (r: Option<Submission>)
    ensures r.None? <==> NumberList(numbers) == []
    ensures r.Some? ==> r.value.date == date && r.value.province == province
                        && r.value.numbers == NumberList(numbers)
  {
    var numberList := NumberList(numbers);
    if |numberList| == 0 then None else Some(Submission(date, province, numberList))
  }

  /** A ticket number as `handleSubmit` passes it on: at least two characters,
      no white space around it, no line break or comma in it. */
  predicate CleanEntry(n: string)
  {
    LongEnough(n) && !IsSpace(n[0]) && !IsSpace(n[|n| - 1]) && NoBreak(n)
  }

  /** A trimmed piece of a string without breaks has none either. */
  lemma TrimNoBreak(piece: string)
    requires NoBreak(piece)
    ensures NoBreak(Trim(piece))
  {
    TrimInside(piece);
    var a, b :| 0 <= a <= b <= |piece| && Trim(piece) == piece[a..b];
    forall i | 0 <= i < |Trim(piece)|
      ensures !IsBreak(Trim(piece)[i])
    {
      assert Trim(piece)[i] == piece[a + i];
    }
  }

  /** Trimmed pieces without breaks have none either, and no white space
      around them. */
  lemma TrimAllClean(pieces: seq<string>)
    requires forall k :: 0 <= k < |pieces| ==> NoBreak(pieces[k])
    ensures forall k :: 0 <= k < |pieces| ==>
              var t := TrimAll(pieces)[k];
              NoBreak(t) && (t == [] || (!IsSpace(t[0]) && !IsSpace(t[|t| - 1])))
  {
    forall k | 0 <= k < |pieces|
      ensures NoBreak(TrimAll(pieces)[k])
    {
      TrimNoBreak(pieces[k]);
    }
  }

  /** The entries of pieces without breaks are clean and keep their order. */
  lemma EntriesClean(pieces: seq<string>)
    requires forall k :: 0 <= k < |pieces| ==> NoBreak(pieces[k])
    ensures forall k :: 0 <= k < |Entries(pieces)| ==> CleanEntry(Entries(pieces)[k])
    ensures Embeds(Entries(pieces), TrimAll(pieces))
  {
    var trimmed := TrimAll(pieces);
    TrimAllClean(pieces);
    var list := Entries(pieces);
    forall k | 0 <= k < |list|
      ensures CleanEntry(list[k])
    {
      assert list[k] in trimmed && LongEnough(list[k]);
    }
    FilterEmbeds(trimmed, LongEnough);
  }

  /** Each entry of the list is clean, and the entries keep the order of the
      pieces they come from. */
  lemma NumberListShape(numbers: string)
    ensures forall k :: 0 <= k < |NumberList(numbers)| ==> CleanEntry(NumberList(numbers)[k])
    ensures Embeds(NumberList(numbers), TrimAll(SplitRuns(numbers)))
  {
    SplitRunsNoBreak(numbers);
    EntriesClean(SplitRuns(numbers));
  }

  /** Splitting undoes joining with line breaks when every piece is non-empty
      and holds no line break or comma. */
  lemma {:induction false} SplitRunsJoin(xs: seq<string>)
    requires xs != []
    requires forall k :: 0 <= k < |xs| ==> xs[k] != [] && NoBreak(xs[k])
    ensures SplitRuns(JoinWith(xs, '\n')) == xs
    decreases |xs|
  {
    var s := JoinWith(xs, '\n');
    var a := xs[0];
    var i := Span(s, 0, c => !IsBreak(c));
    if |xs| == 1 {
      SpanIs(s, 0, |s|, c => !IsBreak(c));
    } else {
      var rest := JoinWith(xs[1..], '\n');
      assert s == a + ['\n'] + rest;
      assert forall k :: 0 <= k < |a| ==> s[k] == a[k];
      SpanIs(s, 0, |a|, c => !IsBreak(c));
      assert xs[1][0] == rest[0] by { JoinHead(xs[1..]); }
      assert s[|a| + 1] == rest[0];
      SpanIs(s, |a|, |a| + 1, IsBreak);
      assert s[..|a|] == a;
      assert s[|a| + 1..] == rest;
      SplitRunsJoin(xs[1..]);
    }
  }

  /** A join starts with the first piece's first character. */
  lemma JoinHead(xs: seq<string>)
    requires xs != [] && xs[0] != []
    ensures JoinWith(xs, '\n') != [] && JoinWith(xs, '\n')[0] == xs[0][0]
  {
  }

  /** Trimming pieces that have no white space around them changes nothing. */
  lemma TrimAllNoOp(xs: seq<string>)
    requires forall k :: 0 <= k < |xs| ==> CleanEntry(xs[k])
    ensures TrimAll(xs) == xs
  {
    forall k | 0 <= k < |xs|
      ensures TrimAll(xs)[k] == xs[k]
    {
      TrimNoOp(xs[k]);
    }
  }

  /** The form shows `initialNumbers.join('\n')`: submitting it unchanged gives the
      same numbers back when each of them is clean. */
  lemma NumberListRoundTrip(xs: seq<string>)
    requires xs != []
    requires forall k :: 0 <= k < |xs| ==> CleanEntry(xs[k])
    ensures NumberList(JoinWith(xs, '\n')) == xs
  {
    SplitRunsJoin(xs);
    EntriesNoOp(xs);
  }

  /** Clean entries come through unchanged. */
  lemma EntriesNoOp(xs: seq<string>)
    requires forall k :: 0 <= k < |xs| ==> CleanEntry(xs[k])
    ensures Entries(xs) == xs
  {
    TrimAllNoOp(xs);
    FilterNoOp(xs, LongEnough);
  }

  /** `Object.entries(provinces).filter(([, p]) => p.region === region)`. */
  function InRegion(table: seq<Province>, region: Region): (r: seq<Province>)
    ensures forall p :: p in r <==> p in table && p.region == region
  {
    Filter(table, (p: Province) => p.region == region)
  }

  /** `groupedProvinces`, over the province table it is given. */
  datatype Grouped = Grouped(bac: seq<Province>, trung: seq<Province>, nam: seq<Province>)

  function GroupedProvinces(table: seq<Province>): Grouped
  {
    Grouped(InRegion(table, Bac), InRegion(table, Trung), InRegion(table, Nam))
  }

  /** The groups the form shows, from the schedule's `provinces` table. */
  function FormGroups(): Grouped
  {
    GroupedProvinces(Provinces)
  }

  /** Splitting a list three ways by region loses and repeats nothing. */
  lemma {:induction false} RegionSplitCount(xs: seq<Province>)
    ensures |InRegion(xs, Bac)| + |InRegion(xs, Trung)| + |InRegion(xs, Nam)| == |xs|
    decreases |xs|
  {
    if xs != [] {
      RegionSplitCount(xs[1..]);
    }
  }

  /** The three groups partition the table: each province is in the group of
      its region and no other, the sizes add up, and each group keeps table order. */
  lemma GroupedPartition(table: seq<Province>)
    ensures var g := GroupedProvinces(table);
      && |g.bac| + |g.trung| + |g.nam| == |table|
      && (forall p :: p in table ==>
            && (p in g.bac <==> p.region == Bac)
            && (p in g.trung <==> p.region == Trung)
            && (p in g.nam <==> p.region == Nam))
      && Embeds(g.bac, table) && Embeds(g.trung, table) && Embeds(g.nam, table)
  {
    RegionSplitCount(table);
    FilterEmbeds(table, (p: Province) => p.region == Bac);
    FilterEmbeds(table, (p: Province) => p.region == Trung);
    FilterEmbeds(table, (p: Province) => p.region == Nam);
  }
}
