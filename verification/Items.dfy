/** Inbox items and the order the gateway keeps them in. */
module Items {

  /** One delivery unit: the conversation, its sequence number, the message id
      and whether the kind is an overlay (edit, delete, reaction, pin). */
  datatype Item = Item(conv: string, num: int, uuid: string, overlay: bool)

  /** The language's `<` on strings: lexicographic on characters. */
  predicate StringLess(a: string, b: string) {
    if b == "" then false
    else if a == "" then true
    else a[0] < b[0] || (a[0] == b[0] && StringLess(a[1..], b[1..]))
  }

  lemma {:induction false} StringLessTotal(a: string, b: string)
    ensures StringLess(a, b) || a == b || StringLess(b, a)
    ensures !(StringLess(a, b) && StringLess(b, a))
    ensures a == b ==> !StringLess(a, b)
  {
    if a != "" && b != "" {
      StringLessTotal(a[1..], b[1..]);
      assert a == [a[0]] + a[1..] && b == [b[0]] + b[1..];
    }
  }

  lemma {:induction false} StringLessTransitive(a: string, b: string, c: string)
    requires StringLess(a, b) && StringLess(b, c)
    ensures StringLess(a, c)
  {
    if a != "" && a[0] == b[0] == c[0] {
      StringLessTransitive(a[1..], b[1..], c[1..]);
    }
  }

  /** The comparator of the flush: by conversation, then by sequence number. */
  predicate Less(a: Item, b: Item) {
    if a.conv != b.conv then StringLess(a.conv, b.conv) else a.num < b.num
  }

  predicate SameKey(a: Item, b: Item) {
    a.conv == b.conv && a.num == b.num
  }

  lemma LessTotal(a: Item, b: Item)
    ensures Less(a, b) || SameKey(a, b) || Less(b, a)
    ensures !(Less(a, b) && Less(b, a))
    ensures SameKey(a, b) ==> !Less(a, b)
  {
    StringLessTotal(a.conv, b.conv);
  }

  lemma LessTransitive(a: Item, b: Item, c: Item)
    requires Less(a, b) && !Less(c, b)
    ensures Less(a, c)
  {
    LessTotal(b, c);
    StringLessTotal(a.conv, b.conv);
    StringLessTotal(b.conv, c.conv);
    StringLessTotal(a.conv, c.conv);
    if a.conv != b.conv && b.conv != c.conv {
      StringLessTransitive(a.conv, b.conv, c.conv);
    }
  }

  /** `!Less` is transitive: the comparator is a weak order. */
  lemma NotLessTransitive(a: Item, b: Item, c: Item)
    requires !Less(b, a) && !Less(c, b)
    ensures !Less(c, a)
  {
    if Less(c, a) {
      LessTotal(b, c);
      LessTransitive(c, a, b);
    }
  }

  ghost predicate Sorted(s: seq<Item>) {
    forall i, j :: 0 <= i < j < |s| ==> !Less(s[j], s[i])
  }

  ghost predicate Ascending(s: seq<Item>) {
    forall i, j :: 0 <= i < j < |s| ==> Less(s[i], s[j])
  }

  /** Per conversation, sequence numbers strictly increase: the order a client is promised. */
  ghost predicate ConvAscending(s: seq<Item>) {
    forall i, j :: 0 <= i < j < |s| && s[i].conv == s[j].conv ==> s[i].num < s[j].num
  }
}
