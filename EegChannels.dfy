/**
 * Channel selection: `get_eeg_channels` keeps the board's EEG channels whose names are not
 * blacklisted. It walks the name list, so a channel with no name is never kept, and it falls back
 * to the unfiltered list when the names cannot be read or a kept name has no channel at its index.
 */
module EegChannels {
  import opened Wrappers
  import opened Seqs

  /** The channels of `pairs` (channel, name), in order, whose name is not in `blacklist`. */
  function Unlisted(pairs: seq<(int, string)>, blacklist: set<string>): seq<int>
    decreases |pairs|
  {
    if pairs == [] then []
    else if pairs[0].1 in blacklist then Unlisted(pairs[1..], blacklist)
    else [pairs[0].0] + Unlisted(pairs[1..], blacklist)
  }

  /** `eeg_channels[i]` is never evaluated out of range for a name that is kept. */
  predicate Indexable(channels: seq<int>, names: seq<string>, blacklist: set<string>)
  {
    |names| <= |channels| || forall n :: n in names[|channels|..] ==> n in blacklist
  }

  function BlacklistOf(blacklisted: Option<set<string>>): set<string>
  {
    if blacklisted.None? then {} else blacklisted.value
  }

  /** The result of `get_eeg_channels`, given what `BoardShim` answers for the board. */
  function SelectedChannels(channels: seq<int>, names: Option<seq<string>>, blacklisted: Option<set<string>>): seq<int>
  {
    var blacklist := BlacklistOf(blacklisted);
    if names.Some? && Indexable(channels, names.value, blacklist)
    then Unlisted(Zip(channels, names.value), blacklist)
    else channels
  }

  lemma {:induction false} UnlistedSnoc(pairs: seq<(int, string)>, p: (int, string), blacklist: set<string>)
    ensures Unlisted(pairs + [p], blacklist)
         == Unlisted(pairs, blacklist) + (if p.1 in blacklist then [] else [p.0])
    decreases |pairs|
  {
    if pairs != [] {
      assert (pairs + [p])[1..] == pairs[1..] + [p];
      UnlistedSnoc(pairs[1..], p, blacklist);
    }
  }

  /**
   * `get_eeg_channels(board_id, blacklisted_channels)`. `channels` is
   * `BoardShim.get_eeg_channels(board_id)`; `names` is `BoardShim.get_eeg_names(board_id)`,
   * `None` when that call raises.
   */
  method GetEegChannels(channels: seq<int>, names: Option<seq<string>>, blacklisted: Option<set<string>>)
    returns (eegChannels: seq<int>)
    ensures eegChannels == SelectedChannels(channels, names, blacklisted)
  {
    eegChannels := channels;
    if names.None? {
      return;
    }
    var eegNames := names.value;
    var blacklist := BlacklistOf(blacklisted);
    var selected: seq<int> := [];
    for i := 0 to |eegNames|
      invariant selected == Unlisted(Zip(channels, eegNames[..i]), blacklist)
      invariant forall j :: |channels| <= j < i ==> eegNames[j] in blacklist
    {
      if eegNames[i] !in blacklist {
        if i >= |channels| {
          // eeg_channels[i] raises IndexError: the partial selection is discarded
          return;
        }
        UnlistedSnoc(Zip(channels, eegNames[..i]), (channels[i], eegNames[i]), blacklist);
        assert Zip(channels, eegNames[..i + 1]) == Zip(channels, eegNames[..i]) + [(channels[i], eegNames[i])];
        selected := selected + [channels[i]];
      } else if i < |channels| {
        UnlistedSnoc(Zip(channels, eegNames[..i]), (channels[i], eegNames[i]), blacklist);
        assert Zip(channels, eegNames[..i + 1]) == Zip(channels, eegNames[..i]) + [(channels[i], eegNames[i])];
      } else {
        assert Zip(channels, eegNames[..i + 1]) == Zip(channels, eegNames[..i]);
      }
    }
    assert eegNames[..|eegNames|] == eegNames;
    eegChannels := selected;
  }

  /** Number of pairs whose name is exactly `name`. */
  function NameCount(pairs: seq<(int, string)>, name: string): nat
    decreases |pairs|
  {
    if pairs == [] then 0 else (if pairs[0].1 == name then 1 else 0) + NameCount(pairs[1..], name)
  }

  /** Number of pairs whose name is blacklisted. */
  function ListedCount(pairs: seq<(int, string)>, blacklist: set<string>): nat
    decreases |pairs|
  {
    if pairs == [] then 0 else (if pairs[0].1 in blacklist then 1 else 0) + ListedCount(pairs[1..], blacklist)
  }

  /** Every pair is either kept or counted as blacklisted. */
  lemma {:induction false} UnlistedSize(pairs: seq<(int, string)>, blacklist: set<string>)
    ensures |Unlisted(pairs, blacklist)| + ListedCount(pairs, blacklist) == |pairs|
    decreases |pairs|
  {
    if pairs != [] {
      UnlistedSize(pairs[1..], blacklist);
    }
  }

  /**
   * Blacklisting one more name removes exactly the channels carrying that name; a name the
   * board does not have changes nothing.
   */
  lemma {:induction false} BlacklistOneMore(pairs: seq<(int, string)>, blacklist: set<string>, name: string)
    requires name !in blacklist
    ensures |Unlisted(pairs, blacklist + {name})| + NameCount(pairs, name) == |Unlisted(pairs, blacklist)|
    ensures NameCount(pairs, name) == 0 ==> Unlisted(pairs, blacklist + {name}) == Unlisted(pairs, blacklist)
    decreases |pairs|
  {
    if pairs != [] {
      BlacklistOneMore(pairs[1..], blacklist, name);
    }
  }

  /** Every selected channel is one of the board's EEG channels. */
  lemma {:induction false} UnlistedFromChannels(pairs: seq<(int, string)>, blacklist: set<string>)
    ensures forall c :: c in Unlisted(pairs, blacklist) ==> exists i :: 0 <= i < |pairs| && pairs[i].0 == c
    decreases |pairs|
  {
    if pairs != [] {
      UnlistedFromChannels(pairs[1..], blacklist);
      forall c | c in Unlisted(pairs, blacklist)
        ensures exists i :: 0 <= i < |pairs| && pairs[i].0 == c
      {
        if c in Unlisted(pairs[1..], blacklist) {
          var i :| 0 <= i < |pairs[1..]| && pairs[1..][i].0 == c;
          assert pairs[i + 1].0 == c;
        } else {
          assert pairs[0].0 == c;
        }
      }
    }
  }

  lemma {:induction false} UnlistedNothingListed(pairs: seq<(int, string)>)
    ensures Unlisted(pairs, {}) == seq(|pairs|, i requires 0 <= i < |pairs| => pairs[i].0)
    decreases |pairs|
  {
    if pairs != [] {
      UnlistedNothingListed(pairs[1..]);
    }
  }

  /**
   * Without a blacklist every named position is kept: the result is the channel list cut to the
   * length of the name list (the whole list when the names are missing or outnumber the channels).
   */
  lemma NoBlacklistKeepsNamedChannels(channels: seq<int>, names: Option<seq<string>>)
    ensures names.Some? && |names.value| <= |channels| ==> SelectedChannels(channels, names, None) == channels[..|names.value|]
    ensures names.None? || |channels| <= |names.value| ==> SelectedChannels(channels, names, None) == channels
  {
    if names.Some? {
      UnlistedNothingListed(Zip(channels, names.value));
    }
  }

  /**
   * When the names are readable and there are no more names than channels (so indexing never
   * fails), blacklisting one more name drops exactly the channels with that name.
   */
  lemma BlacklistingShrinksSelection(channels: seq<int>, names: seq<string>, blacklist: set<string>, name: string)
    requires |names| <= |channels|
    requires name !in blacklist
    ensures |SelectedChannels(channels, Some(names), Some(blacklist + {name}))|
          + NameCount(Zip(channels, names), name)
         == |SelectedChannels(channels, Some(names), Some(blacklist))|
  {
    BlacklistOneMore(Zip(channels, names), blacklist, name);
  }
}
