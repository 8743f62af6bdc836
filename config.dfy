/**
 * The newsletter recipient setting: a comma-separated list of addresses in one
 * string, possibly unset.
 */
module Config {
  import opened Options
  import Text
  import Seqs

  /** A parsed recipient: not empty, no comma, nothing to trim at either end. */
  predicate Recipient(s: string) {
    s != "" && ',' !in s && Text.Trimmed(s)
  }

  /** The filter of the comprehension: a stripped field is kept when it is not empty. */
  predicate NonBlank(s: string) { s != "" }

  /** Stripping a field without a comma gives a trimmed string without a comma. */
  lemma {:induction false} StripField(field: string)
    requires ',' !in field
    ensures ',' !in Text.Strip(field) && Text.Trimmed(Text.Strip(field))
  {
    var r := Text.Strip(field);
    var i := |field| - |Text.LStrip(field)|;
    assert r == field[i..i + |r|];
    forall k | 0 <= k < |r| ensures r[k] != ',' {
      assert r[k] == field[i + k];
    }
  }

  /** `[f.strip() for f in fields if f.strip()]` */
  function Kept(fields: seq<string>): (r: seq<string>)
    requires forall i :: 0 <= i < |fields| ==> ',' !in fields[i]
    ensures |r| <= |fields|
    ensures forall i :: 0 <= i < |r| ==> Recipient(r[i])
  {
    if fields == [] then []
    else
      var s := Text.Strip(fields[0]);
      var rest := Kept(fields[1..]);
      if s == "" then rest
      else
        StripField(fields[0]);
        assert Recipient(s);
        [s] + rest
  }

  /** The fields kept are the stripped fields that are not blank, in their order. */
  lemma {:induction false} KeptMeaning(fields: seq<string>)
    requires forall i :: 0 <= i < |fields| ==> ',' !in fields[i]
    ensures Kept(fields) == Seqs.Filter(Seqs.Map(fields, Text.Strip), NonBlank)
    decreases |fields|
  {
    if fields != [] {
      assert Seqs.Map(fields, Text.Strip)[1..] == Seqs.Map(fields[1..], Text.Strip);
      KeptMeaning(fields[1..]);
    }
  }

  /**
   * `get_newsletter_recipients`: nothing when the setting is unset or empty,
   * otherwise the stripped comma-separated fields that are not blank, in order.
   */
  function ParseRecipients(setting: Option<string>): (r: seq<string>)
    ensures !TruthyText(setting) ==> r == []
    ensures forall i :: 0 <= i < |r| ==> Recipient(r[i])
    ensures setting.Some? ==> |r| <= Text.CountChar(setting.value, ',') + 1
    ensures TruthyText(setting) ==>
              r == Seqs.Filter(Seqs.Map(Text.Split(setting.value, ','), Text.Strip), NonBlank)
  {
    if !TruthyText(setting) then []
    else
      KeptMeaning(Text.Split(setting.value, ','));
      Kept(Text.Split(setting.value, ','))
  }

  /** Recipients pass through the filter unchanged. */
  lemma {:induction false} KeptRecipients(xs: seq<string>)
    requires forall i :: 0 <= i < |xs| ==> ',' !in xs[i]
    requires forall i :: 0 <= i < |xs| ==> Recipient(xs[i])
    ensures Kept(xs) == xs
    decreases |xs|
  {
    if xs != [] {
      Text.StripTrimmed(xs[0]);
      KeptRecipients(xs[1..]);
    }
  }

  /** Joining a recipient list with commas and parsing it again gives the list back. */
  lemma {:induction false} JoinParse(recipients: seq<string>)
    requires forall i :: 0 <= i < |recipients| ==> Recipient(recipients[i])
    ensures ParseRecipients(Some(Text.Join(recipients, ','))) == recipients
  {
    if recipients != [] {
      assert forall i :: 0 <= i < |recipients| ==> ',' !in recipients[i];
      Text.SplitJoin(recipients, ',');
      KeptRecipients(recipients);
      assert Text.Join(recipients, ',') != "" by {
        JoinNonEmpty(recipients);
      }
    }
  }

  lemma {:induction false} JoinNonEmpty(xs: seq<string>)
    requires |xs| >= 1 && xs[0] != ""
    ensures Text.Join(xs, ',') != ""
  {
    if |xs| > 1 {
      assert Text.Join(xs, ',')[0] == xs[0][0];
    }
  }
}
