/**
 * Link rules (`_VirtualLink`, `VirtualFile`, `VirtualDirectory`): a real
 * path, a virtual path, whether the rule is for a directory, and the
 * flag bitset, which the rule's named properties read and write one bit
 * at a time.
 */
module Links {
  import opened Wrappers
  import opened Errors
  import opened LinkFlags

  /** Which of the three Python classes built the rule. */
  datatype LinkClass = BaseLink | FileLink | DirectoryLink

  /** A Python value handed to a property setter; only `True` and `False` are of type `bool`. */
  datatype Value = Bool(b: bool) | Int(i: int) | Str(s: string) | NoneValue

  class VirtualLink {
    const kind: LinkClass
    /** `real_path`, made absolute at construction. */
    const realPath: string
    /** `virtual_path`, made absolute at construction. */
    const virtualPath: string
    /** `is_directory`: fixed at construction. */
    const isDirectory: bool
    /** `link_flags`. */
    var linkFlags: bv32

    /**
     * Whether the rule has the property behind mask `m`: the fail-if-exists
     * and redirect-create properties are on every rule, the recursive and
     * monitor-changes properties only on `VirtualDirectory`.
     */
    predicate HasProperty(m: bv32) {
      IsFlag(m) && (DirectoryOnly(m) ==> kind == DirectoryLink)
    }

    /** `_VirtualLink(real_path, virtual_path, is_directory, link_flags)`. */
    constructor Base(abspath: string -> string, realPath: string, virtualPath: string,
                     isDirectory: bool, linkFlags: bv32)
      ensures kind == BaseLink && this.isDirectory == isDirectory && this.linkFlags == linkFlags
      ensures this.realPath == abspath(realPath) && this.virtualPath == abspath(virtualPath)
    {
      kind := BaseLink;
      this.realPath := abspath(realPath);
      this.virtualPath := abspath(virtualPath);
      this.isDirectory := isDirectory;
      this.linkFlags := linkFlags;
    }

    /** `VirtualFile(real_path, virtual_path)`: a file rule with no flag set. */
    constructor File(abspath: string -> string, realPath: string, virtualPath: string)
      ensures kind == FileLink && !isDirectory && linkFlags == 0
      ensures this.realPath == abspath(realPath) && this.virtualPath == abspath(virtualPath)
    {
      kind := FileLink;
      this.realPath := abspath(realPath);
      this.virtualPath := abspath(virtualPath);
      isDirectory := false;
      linkFlags := 0;
    }

    /** `VirtualDirectory(real_path, virtual_path)`: a directory rule with only `link_recursively` set. */
    constructor Directory(abspath: string -> string, realPath: string, virtualPath: string)
      ensures kind == DirectoryLink && isDirectory && linkFlags == RECURSIVE
      ensures this.realPath == abspath(realPath) && this.virtualPath == abspath(virtualPath)
    {
      kind := DirectoryLink;
      this.realPath := abspath(realPath);
      this.virtualPath := abspath(virtualPath);
      isDirectory := true;
      linkFlags := 0;
      new;
      var _ := SetFlag(RECURSIVE, Bool(true));
      DirectoryDefaults(RECURSIVE);
    }

    /** The getter of a flag property: whether the mask's bit is present in `link_flags`. */
    function Flag(m: bv32): (r: bool)
      reads this
      requires HasProperty(m)
      ensures r <==> linkFlags & m == m
    {
      MasksAreDistinctBits(m, m);
      SingleBitTest(linkFlags, m);
      IsSet(linkFlags, m)
    }

    /**
     * The setter of a flag property: a non-bool raises `TypeError`; a value
     * equal to the current one changes nothing; otherwise the bit is set with
     * `|=` or cleared with `&= ~`.
     */
    method SetFlag(m: bv32, value: Value) returns (r: Outcome<Error>)
      requires HasProperty(m)
      modifies this
      ensures !value.Bool? ==> r == Fail(TypeError) && linkFlags == old(linkFlags)
      ensures value.Bool? ==> r == Pass && linkFlags == Assign(old(linkFlags), m, value.b)
      ensures value.Bool? ==> Flag(m) == value.b
      ensures value.Bool? && old(Flag(m)) == value.b ==> linkFlags == old(linkFlags)
    {
      if !value.Bool? {
        return Fail(TypeError);
      }
      var flags := linkFlags;
      if IsSet(flags, m) == value.b {
        AssignCurrentValue(flags, m);
        return Pass;
      }
      if value.b {
        OrIsAssignTrue(flags, m);
        linkFlags := flags | m;
      } else {
        AndNotIsAssignFalse(flags, m);
        linkFlags := flags & !m;
      }
      return Pass;
    }

    /**
     * The setter of `is_directory`. Its guard tests the rule against
     * `type(_VirtualLink)`, which is the metaclass `type`; no rule is an
     * instance of it, so the setter raises `AttributeError` every time and
     * the rule is left as it was.
     */
    method SetIsDirectory(value: Value) returns (r: Outcome<Error>)
      ensures r == Fail(AttributeError)
    {
      var isInstanceOfType := false;
      if !isInstanceOfType {
        return Fail(AttributeError);
      }
      if !value.Bool? {
        return Fail(TypeError);
      }
      return Pass;
    }
  }
}
