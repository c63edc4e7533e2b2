/** `WmiGpuVendorDetector`: the GPU vendor from the names and adapter
    compatibility strings of the video controllers. */
module WmiGpuVendorDetector {
  import opened Common

  datatype GpuVendor = Unknown | Amd | Nvidia | Intel

  /** One `Win32_VideoController` row; a missing column is `None`. */
  datatype VideoController = VideoController(name: Option<string>, adapterCompatibility: Option<string>)

  /** `DetectVendorFromText`: AMD keywords first, then NVIDIA, then Intel. */
  function DetectVendorFromText(text: string): GpuVendor
  {
    if IsBlank(text) then Unknown
    else
      var normalized := ToLower(text);
      if Contains(normalized, "advanced micro devices") || Contains(normalized, "amd") || Contains(normalized, "radeon") then Amd
      else if Contains(normalized, "nvidia") || Contains(normalized, "geforce") then Nvidia
      else if Contains(normalized, "intel") then Intel
      else Unknown
  }

  function OrEmpty(s: Option<string>): string
  {
    if s.Some? then s.value else ""
  }

  /** The text classified for one controller: "compatibility name", trimmed. */
  function CombinedText(c: VideoController): string
  {
    Trim(OrEmpty(c.adapterCompatibility) + " " + OrEmpty(c.name))
  }

  /** The controller's text classifies as the vendor. */
  function ClassifiesAs(vendor: GpuVendor): VideoController -> bool
  {
    c => DetectVendorFromText(CombinedText(c)) == vendor
  }

  /** Some controller's text classifies as the vendor. */
  predicate Found(controllers: seq<VideoController>, vendor: GpuVendor)
  {
    Any(controllers, ClassifiesAs(vendor))
  }

  /** The vendor reported for a list of controllers: AMD over NVIDIA over
      Intel over Unknown. */
  function VendorByPriority(controllers: seq<VideoController>): GpuVendor
  {
    if Found(controllers, Amd) then Amd
    else if Found(controllers, Nvidia) then Nvidia
    else if Found(controllers, Intel) then Intel
    else Unknown
  }

  /** `DetectVendor`: the query result is `None` when it throws; off Windows
      nothing is queried. */
  method DetectVendor(isWindows: bool, query: Option<seq<VideoController>>) returns (vendor: GpuVendor)
    ensures !isWindows || query.None? ==> vendor == Unknown
    ensures isWindows && query.Some? ==> vendor == VendorByPriority(query.value)
  {
    if !isWindows {
      return Unknown;
    }
    if query.None? {
      return Unknown;
    }
    var controllers := query.value;
    var foundAmd, foundNvidia, foundIntel := false, false, false;
    for i := 0 to |controllers|
      invariant foundAmd == Found(controllers[..i], Amd)
      invariant foundNvidia == Found(controllers[..i], Nvidia)
      invariant foundIntel == Found(controllers[..i], Intel)
    {
      var v := DetectVendorFromText(CombinedText(controllers[i]));
      AnyStep(controllers, i, ClassifiesAs(Amd));
      AnyStep(controllers, i, ClassifiesAs(Nvidia));
      AnyStep(controllers, i, ClassifiesAs(Intel));
      foundAmd := foundAmd || v == Amd;
      foundNvidia := foundNvidia || v == Nvidia;
      foundIntel := foundIntel || v == Intel;
    }
    assert controllers[..|controllers|] == controllers;
    if foundAmd { return Amd; }
    if foundNvidia { return Nvidia; }
    if foundIntel { return Intel; }
    return Unknown;
  }

  // ---------------------------------------------------------------------
  // Properties

  /** Blank text is Unknown. */
  lemma BlankIsUnknown(text: string)
    requires IsBlank(text)
    ensures DetectVendorFromText(text) == Unknown
  {
  }

  /** Classification ignores case. */
  lemma TextCaseIgnored(text: string)
    ensures DetectVendorFromText(ToLower(text)) == DetectVendorFromText(text)
  {
    ToLowerIdempotent(text);
    LowerKeepsBlank(text);
  }

  lemma {:induction false} LowerKeepsBlank(s: string)
    ensures IsBlank(ToLower(s)) <==> IsBlank(s)
  {
    var l := ToLower(s);
    forall i | 0 <= i < |s| ensures IsWhiteSpace(l[i]) <==> IsWhiteSpace(s[i]) {
      assert l[i] == LowerChar(s[i]);
    }
  }

  /** A text naming both AMD and NVIDIA hardware is AMD. */
  lemma AmdBeforeNvidia(text: string)
    requires !IsBlank(text) && Contains(ToLower(text), "radeon")
    ensures DetectVendorFromText(text) == Amd
  {
  }

  /** Across controllers, a single AMD controller decides; NVIDIA wins only
      without AMD, Intel only without both. */
  lemma PriorityOrder(controllers: seq<VideoController>)
    ensures VendorByPriority(controllers) == Amd <==> Found(controllers, Amd)
    ensures VendorByPriority(controllers) == Nvidia <==> !Found(controllers, Amd) && Found(controllers, Nvidia)
    ensures VendorByPriority(controllers) == Intel <==>
      !Found(controllers, Amd) && !Found(controllers, Nvidia) && Found(controllers, Intel)
  {
    var amd, nvidia := Found(controllers, Amd), Found(controllers, Nvidia);
    assert VendorByPriority(controllers) == if amd then Amd else if nvidia then Nvidia
      else if Found(controllers, Intel) then Intel else Unknown;
  }

  /** Without controllers the vendor is Unknown. */
  lemma NoControllersUnknown()
    ensures VendorByPriority([]) == Unknown
  {
  }
}
