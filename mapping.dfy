/**
 * `Mapping`: the link rules a caller has added, kept in two lists in the
 * order they were added, one for directory rules and one for file rules.
 */
module Mappings {
  import opened Links

  /** The rules of `links` whose `is_directory` equals `directories`, in their original order. */
  function Partition(links: seq<VirtualLink>, directories: bool): seq<VirtualLink> {
    if links == [] then []
    else (if links[0].isDirectory == directories then [links[0]] else []) + Partition(links[1..], directories)
  }

  /** Adding a rule at the end adds it at the end of its own side and leaves the other side alone. */
  lemma {:induction false} PartitionAppend(links: seq<VirtualLink>, l: VirtualLink, directories: bool)
    ensures Partition(links + [l], directories)
         == Partition(links, directories) + (if l.isDirectory == directories then [l] else [])
  {
    var tail := if l.isDirectory == directories then [l] else [];
    if links == [] {
      assert links + [l] == [l];
      assert Partition([l], directories) == tail + Partition([], directories);
    } else {
      var head := if links[0].isDirectory == directories then [links[0]] else [];
      assert (links + [l])[0] == links[0];
      assert (links + [l])[1..] == links[1..] + [l];
      PartitionAppend(links[1..], l, directories);
      calc {
        Partition(links + [l], directories);
        head + Partition(links[1..] + [l], directories);
        head + (Partition(links[1..], directories) + tail);
        (head + Partition(links[1..], directories)) + tail;
        Partition(links, directories) + tail;
      }
    }
  }

  /**
   * The two sides split the rules without loss or duplication: each side
   * holds only rules of its kind, and together they hold every rule as
   * often as it was added.
   */
  lemma {:induction false} PartitionSplits(links: seq<VirtualLink>)
    ensures forall l :: l in Partition(links, true) ==> l.isDirectory
    ensures forall l :: l in Partition(links, false) ==> !l.isDirectory
    ensures multiset(Partition(links, true)) + multiset(Partition(links, false)) == multiset(links)
  {
    if links != [] {
      PartitionSplits(links[1..]);
      assert links == [links[0]] + links[1..];
    }
  }

  class Mapping {
    /** `_dirs`. */
    var dirs: seq<VirtualLink>
    /** `_files`. */
    var files: seq<VirtualLink>
    /** Every rule passed to `link`, in call order. */
    ghost var links: seq<VirtualLink>

    ghost predicate Valid()
      reads this
    {
      dirs == Partition(links, true) && files == Partition(links, false)
    }

    /** `Mapping()`: both lists empty. */
    constructor ()
      ensures Valid() && links == [] && dirs == [] && files == []
    {
      dirs, files := [], [];
      links := [];
    }

    /** `link(virtual_link)`: append the rule to the directory list or the file list, by its `is_directory`. */
    method Link(l: VirtualLink)
      requires Valid()
      modifies this
      ensures Valid() && links == old(links) + [l]
      ensures l.isDirectory ==> dirs == old(dirs) + [l] && files == old(files)
      ensures !l.isDirectory ==> files == old(files) + [l] && dirs == old(dirs)
    {
      PartitionAppend(links, l, true);
      PartitionAppend(links, l, false);
      if l.isDirectory {
        dirs := dirs + [l];
      } else {
        files := files + [l];
      }
      links := links + [l];
    }

    /**
     * `directories()`: the directory rules in the order they were linked.
     * The generator walks the stored list without consuming it, so every
     * call yields the same rules.
     */
    method Directories() returns (ds: seq<VirtualLink>)
      requires Valid()
      ensures ds == Partition(links, true)
    {
      ds := [];
      for i := 0 to |dirs|
        invariant ds == dirs[..i]
      {
        ds := ds + [dirs[i]];
      }
    }

    /** `files()`: the file rules in the order they were linked. */
    method Files() returns (fs: seq<VirtualLink>)
      requires Valid()
      ensures fs == Partition(links, false)
    {
      fs := [];
      for i := 0 to |files|
        invariant fs == files[..i]
      {
        fs := fs + [files[i]];
      }
    }
  }

  /**
   * Linking directory `a`, file `b` and directory `c` gives the directory
   * rules `[a, c]` and the file rules `[b]`, and reading them a second time
   * gives the same.
   */
  method LinkOrderExample(a: VirtualLink, b: VirtualLink, c: VirtualLink)
    returns (ds: seq<VirtualLink>, fs: seq<VirtualLink>, dsAgain: seq<VirtualLink>, fsAgain: seq<VirtualLink>)
    requires a.isDirectory && !b.isDirectory && c.isDirectory
    ensures ds == [a, c] && fs == [b]
    ensures dsAgain == ds && fsAgain == fs
  {
    var mapping := new Mapping();
    mapping.Link(a);
    mapping.Link(b);
    mapping.Link(c);
    ds := mapping.Directories();
    fs := mapping.Files();
    dsAgain := mapping.Directories();
    fsAgain := mapping.Files();
  }
}
