/**
  A texture asset: its life from decoded mip buffers to an uploaded GL texture
  object, the usage count that tells the renderer whether it is still needed,
  and the GL state changes made when the texture is switched on and off
  around a draw call.

  The GL is reached only through an `OpenGL.GLContext`, whose log records the
  calls. The helper `sizeAtMipLevel` is passed in as a function value
  (`MipSizeFn`) and `bytesPerPixelForFormat(format)` as the number it returns;
  pixel data is kept only as the byte length of each mip buffer.
 */
module Assets {
  import opened OpenGL

  datatype TextureType = Opaque | Masked

  datatype TextureCulling = CullDefault | CullNone | CullFront | CullBack | CullBoth

  datatype BlendEnable = UseDefault | UseFactors | DisableBlend

  datatype TextureBlendFunc = TextureBlendFunc(enable: BlendEnable, srcFactor: nat, destFactor: nat)

  /** The blend function every texture starts with. */
  const DefaultBlendFunc: TextureBlendFunc :=
    TextureBlendFunc(UseDefault, GL_SRC_ALPHA, GL_ONE_MINUS_SRC_ALPHA)

  /** `sizeAtMipLevel(width, height, level)`: the size of a mip level's image. */
  type MipSizeFn = (nat, nat, nat) -> (nat, nat)

  /** `bytesPerPixelForFormat(format)`: the bytes one pixel of a GL pixel format takes. */
  type BytesPerPixelFn = nat -> nat

  /** Every field of a texture, as one value. */
  datatype TextureState = TextureState(
    name: string,
    absolutePath: string,
    relativePath: string,
    width: nat,
    height: nat,
    usageCount: nat,
    overridden: bool,
    format: nat,
    textureType: TextureType,
    surfaceParms: set<string>,
    culling: TextureCulling,
    blendFunc: TextureBlendFunc,
    textureId: nat,      // 0 while unprepared
    buffers: seq<nat>    // byte length of the buffer of each mip level, level 0 first
  )

  /** The state of a texture that has just been constructed. */
  function NewTextureState(name: string, width: nat, height: nat, format: nat,
                           textureType: TextureType, buffers: seq<nat>): TextureState
  {
    TextureState(name, "", "", width, height, 0, false, format, textureType, {},
                 CullDefault, DefaultBlendFunc, 0, buffers)
  }

  /** The texture type a loader picks for a texture with or without a mask colour. */
  function SelectTextureType(masked: bool): (t: TextureType)
    ensures t.Masked? <==> masked
  {
    if masked then Masked else Opaque
  }

  /** Bytes a mip level of the given size needs. */
  function MipBytes(bytesPerPixel: nat, size: (nat, nat)): nat
  {
    bytesPerPixel * size.0 * size.1
  }

  /** Each buffer holds at least the bytes of the mip level it stands for. */
  predicate BuffersFit(width: nat, height: nat, buffers: seq<nat>, bytesPerPixel: nat, mipSize: MipSizeFn)
  {
    forall level :: 0 <= level < |buffers| ==>
      buffers[level] >= MipBytes(bytesPerPixel, mipSize(width, height, level))
  }

  // ---------------------------------------------------------------------------
  // The GL calls of each operation, as functions of the texture's state.

  function CullOnCalls(culling: TextureCulling): seq<GLCall>
  {
    match culling
    case CullNone => [Disable(CullFaceCap)]
    case CullFront => [CullFace(Front)]
    case CullBoth => [CullFace(FrontAndBack)]
    case CullDefault => []
    case CullBack => []
  }

  function CullOffCalls(culling: TextureCulling): seq<GLCall>
  {
    match culling
    case CullNone => [Enable(CullFaceCap)]
    case CullFront => [CullFace(Back)]
    case CullBoth => [CullFace(Back)]
    case CullDefault => []
    case CullBack => []
  }

  function BlendOnCalls(blend: TextureBlendFunc): seq<GLCall>
  {
    match blend.enable
    case UseDefault => []
    case UseFactors => [PushColorBufferAttrib, BlendFunc(blend.srcFactor, blend.destFactor)]
    case DisableBlend => [PushColorBufferAttrib, Disable(BlendCap)]
  }

  function BlendOffCalls(blend: TextureBlendFunc): seq<GLCall>
  {
    if blend.enable == UseDefault then [] else [PopAttrib]
  }

  /** What `activate` issues. */
  function ActivateCalls(t: TextureState): seq<GLCall>
  {
    if t.textureId == 0 then []
    else [BindTexture(t.textureId)] + CullOnCalls(t.culling) + BlendOnCalls(t.blendFunc)
  }

  /** What `deactivate` issues. */
  function DeactivateCalls(t: TextureState): seq<GLCall>
  {
    if t.textureId == 0 then []
    else BlendOffCalls(t.blendFunc) + CullOffCalls(t.culling) + [BindTexture(0)]
  }

  /** The filters `setMode` installs: always nearest for a masked texture. */
  function FilterCalls(t: TextureState, minFilter: int, magFilter: int): seq<GLCall>
  {
    if t.textureType == Masked then [TexParameter(MinFilter, GL_NEAREST), TexParameter(MagFilter, GL_NEAREST)]
    else [TexParameter(MinFilter, minFilter), TexParameter(MagFilter, magFilter)]
  }

  /** What `setMode` issues. */
  function SetModeCalls(t: TextureState, minFilter: int, magFilter: int): seq<GLCall>
  {
    if t.textureId == 0 then []
    else ActivateCalls(t) + FilterCalls(t, minFilter, magFilter) + DeactivateCalls(t)
  }

  /** The pixel-unpack settings `prepare` makes before uploading. */
  function UnpackCalls(): seq<GLCall>
  {
    [PixelStore(UnpackSwapBytes, GL_FALSE), PixelStore(UnpackLsbFirst, GL_FALSE),
     PixelStore(UnpackRowLength, 0), PixelStore(UnpackSkipPixels, 0),
     PixelStore(UnpackSkipRows, 0), PixelStore(UnpackAlignment, 1)]
  }

  /** Binding the new texture object and setting its filters and wrapping. */
  function SetupCalls(textureId: nat, minFilter: int, magFilter: int): seq<GLCall>
  {
    [BindTexture(textureId), TexParameter(MinFilter, minFilter), TexParameter(MagFilter, magFilter),
     TexParameter(WrapS, GL_REPEAT), TexParameter(WrapT, GL_REPEAT)]
  }

  /** How mipmaps are obtained: none for masked textures, generated for a single level, else given. */
  function MipmapCalls(textureType: TextureType, levels: nat): seq<GLCall>
  {
    if textureType == Masked then
      [TexParameter(GenerateMipmap, GL_FALSE), TexParameter(MinFilter, GL_NEAREST), TexParameter(MagFilter, GL_NEAREST)]
    else if levels == 1 then [TexParameter(GenerateMipmap, GL_TRUE)]
    else [TexParameter(MaxLevel, levels - 1)]
  }

  /** How many mip levels `prepare` uploads: only the first for a masked texture. */
  function UploadCount(t: TextureState): nat
  {
    if t.textureType == Masked then 1 else |t.buffers|
  }

  /** Uploads of levels 0 up to `count`, in that order. */
  function UploadCalls(width: nat, height: nat, format: nat, mipSize: MipSizeFn, count: nat): seq<GLCall>
    decreases count
  {
    if count == 0 then []
    else
      var size := mipSize(width, height, count - 1);
      UploadCalls(width, height, format, mipSize, count - 1) + [TexImage2D(count - 1, size.0, size.1, format)]
  }

  /** What `prepare` issues: nothing at all when there are no buffers. */
  function PrepareCalls(t: TextureState, textureId: nat, minFilter: int, magFilter: int, mipSize: MipSizeFn): seq<GLCall>
  {
    if t.buffers == [] then []
    else
      UnpackCalls() + SetupCalls(textureId, minFilter, magFilter) + MipmapCalls(t.textureType, |t.buffers|)
        + UploadCalls(t.width, t.height, t.format, mipSize, UploadCount(t))
  }

  // ---------------------------------------------------------------------------
  // Counting calls in a log.

  /** How often `c` occurs in `calls`. */
  function Occurrences(calls: seq<GLCall>, c: GLCall): nat
    decreases |calls|
  {
    if calls == [] then 0
    else (if calls[0] == c then 1 else 0) + Occurrences(calls[1..], c)
  }

  lemma {:induction false} OccurrencesAppend(a: seq<GLCall>, b: seq<GLCall>, c: GLCall)
    ensures Occurrences(a + b, c) == Occurrences(a, c) + Occurrences(b, c)
    decreases |a|
  {
    if a == [] {
      assert a + b == b;
    } else {
      assert (a + b)[1..] == a[1..] + b;
      OccurrencesAppend(a[1..], b, c);
    }
  }

  /** The mip levels uploaded by `calls`, in the order of upload. */
  function UploadedLevels(calls: seq<GLCall>): seq<nat>
    decreases |calls|
  {
    if calls == [] then []
    else (if calls[0].TexImage2D? then [calls[0].level] else []) + UploadedLevels(calls[1..])
  }

  lemma {:induction false} UploadedLevelsAppend(a: seq<GLCall>, b: seq<GLCall>)
    ensures UploadedLevels(a + b) == UploadedLevels(a) + UploadedLevels(b)
    decreases |a|
  {
    if a == [] {
      assert a + b == b;
    } else {
      assert (a + b)[1..] == a[1..] + b;
      UploadedLevelsAppend(a[1..], b);
    }
  }

  /** A log without any upload uploads no level. */
  lemma {:induction false} NoUploadedLevels(calls: seq<GLCall>)
    requires forall i :: 0 <= i < |calls| ==> !calls[i].TexImage2D?
    ensures UploadedLevels(calls) == []
    decreases |calls|
  {
    if calls != [] {
      NoUploadedLevels(calls[1..]);
    }
  }

  /** The levels 0, 1, ..., n - 1. */
  function Ascending(n: nat): (r: seq<nat>)
    ensures |r| == n && forall i :: 0 <= i < n ==> r[i] == i
  {
    seq(n, i => i)
  }

  // ---------------------------------------------------------------------------
  // Properties of the call sequences.

  /** The uploads are exactly one image per level, levels ascending from 0, each of its mip size. */
  lemma {:induction false} UploadCallsAt(width: nat, height: nat, format: nat, mipSize: MipSizeFn, count: nat)
    ensures |UploadCalls(width, height, format, mipSize, count)| == count
    ensures forall j :: 0 <= j < count ==>
      UploadCalls(width, height, format, mipSize, count)[j] ==
        TexImage2D(j, mipSize(width, height, j).0, mipSize(width, height, j).1, format)
    ensures UploadedLevels(UploadCalls(width, height, format, mipSize, count)) == Ascending(count)
    decreases count
  {
    if count > 0 {
      var size := mipSize(width, height, count - 1);
      var last := TexImage2D(count - 1, size.0, size.1, format);
      UploadCallsAt(width, height, format, mipSize, count - 1);
      UploadedLevelsAppend(UploadCalls(width, height, format, mipSize, count - 1), [last]);
      assert UploadedLevels([last]) == [count - 1] by {
        assert [last][1..] == [];
      }
      assert Ascending(count - 1) + [count - 1] == Ascending(count);
    }
  }

  /**
    `prepare` uploads nothing without buffers; otherwise it uploads exactly
    `UploadCount(t)` levels (one for a masked texture, one per buffer
    otherwise), in ascending level order starting at 0.
   */
  lemma PrepareUploadsLevels(t: TextureState, textureId: nat, minFilter: int, magFilter: int, mipSize: MipSizeFn)
    ensures t.buffers == [] ==> PrepareCalls(t, textureId, minFilter, magFilter, mipSize) == []
    ensures t.buffers != [] ==>
      UploadedLevels(PrepareCalls(t, textureId, minFilter, magFilter, mipSize)) == Ascending(UploadCount(t))
    ensures t.buffers != [] ==> 1 <= UploadCount(t) <= |t.buffers|
  {
    if t.buffers != [] {
      var head := UnpackCalls() + SetupCalls(textureId, minFilter, magFilter) + MipmapCalls(t.textureType, |t.buffers|);
      var uploads := UploadCalls(t.width, t.height, t.format, mipSize, UploadCount(t));
      NoUploadedLevels(head);
      UploadCallsAt(t.width, t.height, t.format, mipSize, UploadCount(t));
      UploadedLevelsAppend(head, uploads);
    }
  }

  /**
    The buffer-size checks of the constructors are what make `prepare` read
    within the buffers: every level it uploads has a buffer, and that buffer
    holds the bytes of the level's image.
   */
  lemma UploadsReadWithinBuffers(t: TextureState, bytesPerPixelForFormat: BytesPerPixelFn, mipSize: MipSizeFn)
    requires BuffersFit(t.width, t.height, t.buffers, bytesPerPixelForFormat(t.format), mipSize)
    ensures t.buffers != [] ==> UploadCount(t) <= |t.buffers|
    ensures forall j: nat :: j < UploadCount(t) && j < |t.buffers| ==>
      t.buffers[j] >= MipBytes(bytesPerPixelForFormat(t.format), mipSize(t.width, t.height, j))
  {
  }

  /** An unprepared texture issues nothing when activated or deactivated. */
  lemma UnpreparedIsInert(t: TextureState, minFilter: int, magFilter: int)
    requires t.textureId == 0
    ensures ActivateCalls(t) == [] && DeactivateCalls(t) == [] && SetModeCalls(t, minFilter, magFilter) == []
  {
  }

  /**
    The colour-buffer attributes are pushed once on activation and popped
    once on deactivation exactly when the blend mode is not the default.
   */
  lemma BlendAttribPairing(t: TextureState)
    ensures Occurrences(ActivateCalls(t), PushColorBufferAttrib) == Occurrences(DeactivateCalls(t), PopAttrib)
         == (if t.textureId != 0 && t.blendFunc.enable != UseDefault then 1 else 0)
  {
    if t.textureId != 0 {
      OccurrencesInActivate(t, PushColorBufferAttrib);
      OccurrencesOfShort(CullOnCalls(t.culling), PushColorBufferAttrib);
      OccurrencesOfShort(BlendOnCalls(t.blendFunc), PushColorBufferAttrib);
      OccurrencesInDeactivate(t, PopAttrib);
      OccurrencesOfShort(BlendOffCalls(t.blendFunc), PopAttrib);
      OccurrencesOfShort(CullOffCalls(t.culling), PopAttrib);
    }
  }

  /** Face culling is disabled once on activation and enabled once on deactivation exactly for `CullNone`. */
  lemma CullNonePairing(t: TextureState)
    ensures Occurrences(ActivateCalls(t), Disable(CullFaceCap)) == Occurrences(DeactivateCalls(t), Enable(CullFaceCap))
         == (if t.textureId != 0 && t.culling == CullNone then 1 else 0)
  {
    if t.textureId != 0 {
      OccurrencesInActivate(t, Disable(CullFaceCap));
      OccurrencesOfShort(CullOnCalls(t.culling), Disable(CullFaceCap));
      OccurrencesOfShort(BlendOnCalls(t.blendFunc), Disable(CullFaceCap));
      OccurrencesInDeactivate(t, Enable(CullFaceCap));
      OccurrencesOfShort(BlendOffCalls(t.blendFunc), Enable(CullFaceCap));
      OccurrencesOfShort(CullOffCalls(t.culling), Enable(CullFaceCap));
    }
  }

  /**
    The cull face is set once on activation (to `Front` for `CullFront`, to
    `FrontAndBack` for `CullBoth`) and restored to `Back` once on
    deactivation; `CullDefault` and `CullBack` issue no culling call at all.
   */
  lemma CullFacePairing(t: TextureState)
    ensures Occurrences(ActivateCalls(t), CullFace(Front)) == (if t.textureId != 0 && t.culling == CullFront then 1 else 0)
    ensures Occurrences(ActivateCalls(t), CullFace(FrontAndBack)) == (if t.textureId != 0 && t.culling == CullBoth then 1 else 0)
    ensures Occurrences(DeactivateCalls(t), CullFace(Back))
         == (if t.textureId != 0 && (t.culling == CullFront || t.culling == CullBoth) then 1 else 0)
    ensures t.culling == CullDefault || t.culling == CullBack ==>
      CullOnCalls(t.culling) == [] && CullOffCalls(t.culling) == []
  {
    if t.textureId != 0 {
      OccurrencesInActivate(t, CullFace(Front));
      OccurrencesOfShort(CullOnCalls(t.culling), CullFace(Front));
      OccurrencesOfShort(BlendOnCalls(t.blendFunc), CullFace(Front));
      OccurrencesInActivate(t, CullFace(FrontAndBack));
      OccurrencesOfShort(CullOnCalls(t.culling), CullFace(FrontAndBack));
      OccurrencesOfShort(BlendOnCalls(t.blendFunc), CullFace(FrontAndBack));
      OccurrencesInDeactivate(t, CullFace(Back));
      OccurrencesOfShort(BlendOffCalls(t.blendFunc), CullFace(Back));
      OccurrencesOfShort(CullOffCalls(t.culling), CullFace(Back));
    }
  }

  /** Counting in a log of at most two calls. */
  lemma OccurrencesOfShort(calls: seq<GLCall>, c: GLCall)
    requires |calls| <= 2
    ensures Occurrences(calls, c) ==
      (if |calls| > 0 && calls[0] == c then 1 else 0) + (if |calls| > 1 && calls[1] == c then 1 else 0)
  {
    if |calls| > 0 {
      var rest := calls[1..];
      assert Occurrences(calls, c) == (if calls[0] == c then 1 else 0) + Occurrences(rest, c);
      if |rest| > 0 {
        assert Occurrences(rest, c) == (if rest[0] == c then 1 else 0) + Occurrences(rest[1..], c);
        assert rest[1..] == [];
      }
    }
  }

  lemma OccurrencesInActivate(t: TextureState, c: GLCall)
    requires t.textureId != 0
    ensures Occurrences(ActivateCalls(t), c) ==
      (if BindTexture(t.textureId) == c then 1 else 0) + Occurrences(CullOnCalls(t.culling), c)
        + Occurrences(BlendOnCalls(t.blendFunc), c)
  {
    var a1, a2, a3 := [BindTexture(t.textureId)], CullOnCalls(t.culling), BlendOnCalls(t.blendFunc);
    OccurrencesAppend(a1, a2, c);
    OccurrencesAppend(a1 + a2, a3, c);
    OccurrencesOfShort(a1, c);
  }

  lemma OccurrencesInDeactivate(t: TextureState, c: GLCall)
    requires t.textureId != 0
    ensures Occurrences(DeactivateCalls(t), c) ==
      Occurrences(BlendOffCalls(t.blendFunc), c) + Occurrences(CullOffCalls(t.culling), c)
        + (if BindTexture(0) == c then 1 else 0)
  {
    var d1, d2, d3 := BlendOffCalls(t.blendFunc), CullOffCalls(t.culling), [BindTexture(0)];
    OccurrencesAppend(d1, d2, c);
    OccurrencesAppend(d1 + d2, d3, c);
    OccurrencesOfShort(d3, c);
  }

  /** The GL state while the texture is active, as a reference definition. */
  ghost function Activated(s: GLState, t: TextureState): GLState
  {
    s.(boundTexture := t.textureId,
       cullEnabled := if t.culling == CullNone then false else s.cullEnabled,
       cullFace := (match t.culling
                    case CullFront => Front
                    case CullBoth => FrontAndBack
                    case _ => s.cullFace),
       color := (match t.blendFunc.enable
                 case UseDefault => s.color
                 case UseFactors => s.color.(blendSrc := t.blendFunc.srcFactor, blendDest := t.blendFunc.destFactor)
                 case DisableBlend => s.color.(blendEnabled := false)),
       attribStack := if t.blendFunc.enable == UseDefault then s.attribStack else s.attribStack + [s.color])
  }

  /** The GL renderer's standing state between draws: no texture bound, back faces culled. */
  ghost predicate RendererDefaults(s: GLState)
  {
    s.boundTexture == 0 && s.cullEnabled && s.cullFace == Back
  }

  lemma RunCullOn(s: GLState, t: TextureState)
    ensures Run(s, CullOnCalls(t.culling)) ==
      s.(cullEnabled := if t.culling == CullNone then false else s.cullEnabled,
         cullFace := (match t.culling
                      case CullFront => Front
                      case CullBoth => FrontAndBack
                      case _ => s.cullFace))
  {
    match t.culling
    case CullNone => RunOne(s, Disable(CullFaceCap));
    case CullFront => RunOne(s, CullFace(Front));
    case CullBoth => RunOne(s, CullFace(FrontAndBack));
    case CullDefault =>
    case CullBack =>
  }

  lemma RunBlendOn(s: GLState, t: TextureState)
    ensures Run(s, BlendOnCalls(t.blendFunc)) == s.(color := Activated(s, t).color, attribStack := Activated(s, t).attribStack)
  {
    match t.blendFunc.enable
    case UseDefault =>
    case UseFactors => RunTwo(s, PushColorBufferAttrib, BlendFunc(t.blendFunc.srcFactor, t.blendFunc.destFactor));
    case DisableBlend => RunTwo(s, PushColorBufferAttrib, Disable(BlendCap));
  }

  /** Activating a prepared texture binds it and installs its culling and blending. */
  lemma ActivateEstablishes(s: GLState, t: TextureState)
    requires t.textureId != 0
    ensures Run(s, ActivateCalls(t)) == Activated(s, t)
  {
    var a1, a2, a3 := [BindTexture(t.textureId)], CullOnCalls(t.culling), BlendOnCalls(t.blendFunc);
    RunAppend(s, a1 + a2, a3);
    RunAppend(s, a1, a2);
    RunOne(s, BindTexture(t.textureId));
    var s1 := Apply(s, BindTexture(t.textureId));
    RunCullOn(s1, t);
    RunBlendOn(Run(s1, a2), t);
  }

  /** Deactivating from the active state returns the GL to the renderer's defaults. */
  lemma DeactivateRestores(s: GLState, t: TextureState)
    requires t.textureId != 0 && RendererDefaults(s)
    ensures Run(Activated(s, t), DeactivateCalls(t)) == s
  {
    var d1, d2, d3 := BlendOffCalls(t.blendFunc), CullOffCalls(t.culling), [BindTexture(0)];
    var u := Activated(s, t);
    RunAppend(u, d1 + d2, d3);
    RunAppend(u, d1, d2);
    var u1 := Run(u, d1);
    if t.blendFunc.enable != UseDefault {
      RunOne(u, PopAttrib);
      assert (s.attribStack + [s.color])[..|s.attribStack|] == s.attribStack;
    }
    var u2 := Run(u1, d2);
    match t.culling
    case CullNone => RunOne(u1, Enable(CullFaceCap));
    case CullFront => RunOne(u1, CullFace(Back));
    case CullBoth => RunOne(u1, CullFace(Back));
    case CullDefault =>
    case CullBack =>
    RunOne(u2, BindTexture(0));
  }

  /** From the renderer's defaults, `activate` followed by `deactivate` leaves the GL state as it was. */
  lemma ActivateThenDeactivateRestores(s: GLState, t: TextureState)
    requires RendererDefaults(s)
    ensures Run(s, ActivateCalls(t) + DeactivateCalls(t)) == s
  {
    RunAppend(s, ActivateCalls(t), DeactivateCalls(t));
    if t.textureId != 0 {
      ActivateEstablishes(s, t);
      DeactivateRestores(s, t);
    } else {
      assert ActivateCalls(t) + DeactivateCalls(t) == [];
    }
  }

  /**
    `setMode` on a prepared texture changes nothing in the GL but the min and
    mag filters of the texture's own object, which become nearest for a masked
    texture and the requested filters otherwise. On an unprepared texture it
    issues nothing.
   */
  lemma SetModeEffect(s: GLState, t: TextureState, minFilter: int, magFilter: int)
    requires RendererDefaults(s)
    ensures t.textureId == 0 ==> SetModeCalls(t, minFilter, magFilter) == []
    ensures Run(s, SetModeCalls(t, minFilter, magFilter)) ==
      if t.textureId == 0 then s
      else s.(texParams := s.texParams
                [(t.textureId, MinFilter) := if t.textureType == Masked then GL_NEAREST else minFilter]
                [(t.textureId, MagFilter) := if t.textureType == Masked then GL_NEAREST else magFilter])
  {
    if t.textureId != 0 {
      var a, f, d := ActivateCalls(t), FilterCalls(t, minFilter, magFilter), DeactivateCalls(t);
      RunAppend(s, a + f, d);
      RunAppend(s, a, f);
      ActivateEstablishes(s, t);
      var u := Activated(s, t);
      RunTwo(u, f[0], f[1]);
      var minValue := if t.textureType == Masked then GL_NEAREST else minFilter;
      var magValue := if t.textureType == Masked then GL_NEAREST else magFilter;
      var params := s.texParams[(t.textureId, MinFilter) := minValue][(t.textureId, MagFilter) := magValue];
      assert Run(u, f) == u.(texParams := params);
      var s' := s.(texParams := params);
      assert u.(texParams := params) == Activated(s', t);
      DeactivateRestores(s', t);
    }
  }

  /** The images of texture object `texture` after uploading levels 0 up to `count`. */
  ghost function WithUploads(images: map<(nat, nat), (nat, nat)>, texture: nat, width: nat, height: nat,
                             mipSize: MipSizeFn, count: nat): map<(nat, nat), (nat, nat)>
    decreases count
  {
    if count == 0 then images
    else WithUploads(images, texture, width, height, mipSize, count - 1)[(texture, count - 1) := mipSize(width, height, count - 1)]
  }

  lemma {:induction false} WithUploadsAt(images: map<(nat, nat), (nat, nat)>, texture: nat, width: nat, height: nat,
                                         mipSize: MipSizeFn, count: nat)
    ensures forall j :: 0 <= j < count ==>
      (texture, j) in WithUploads(images, texture, width, height, mipSize, count)
      && WithUploads(images, texture, width, height, mipSize, count)[(texture, j)] == mipSize(width, height, j)
    decreases count
  {
    if count > 0 {
      WithUploadsAt(images, texture, width, height, mipSize, count - 1);
    }
  }

  /** Uploading stores one image per level in the bound texture object and changes nothing else. */
  lemma {:induction false} RunUploads(s: GLState, width: nat, height: nat, format: nat, mipSize: MipSizeFn, count: nat)
    ensures Run(s, UploadCalls(width, height, format, mipSize, count)) ==
      s.(images := WithUploads(s.images, s.boundTexture, width, height, mipSize, count))
    decreases count
  {
    if count > 0 {
      var size := mipSize(width, height, count - 1);
      var last := TexImage2D(count - 1, size.0, size.1, format);
      RunUploads(s, width, height, format, mipSize, count - 1);
      RunAppend(s, UploadCalls(width, height, format, mipSize, count - 1), [last]);
      RunOne(Run(s, UploadCalls(width, height, format, mipSize, count - 1)), last);
    }
  }

  /** The GL state after each step of `prepare`, as reference definitions. */
  ghost function Unpacked(s: GLState): GLState
  {
    s.(pixelStore := s.pixelStore[UnpackSwapBytes := GL_FALSE][UnpackLsbFirst := GL_FALSE]
                       [UnpackRowLength := 0][UnpackSkipPixels := 0][UnpackSkipRows := 0][UnpackAlignment := 1])
  }

  ghost function SetUp(s: GLState, textureId: nat, minFilter: int, magFilter: int): GLState
  {
    s.(boundTexture := textureId,
       texParams := s.texParams[(textureId, MinFilter) := minFilter][(textureId, MagFilter) := magFilter]
                      [(textureId, WrapS) := GL_REPEAT][(textureId, WrapT) := GL_REPEAT])
  }

  ghost function Mipmapped(s: GLState, textureType: TextureType, levels: nat): GLState
  {
    s.(texParams :=
         if textureType == Masked then
           s.texParams[(s.boundTexture, GenerateMipmap) := GL_FALSE][(s.boundTexture, MinFilter) := GL_NEAREST]
                      [(s.boundTexture, MagFilter) := GL_NEAREST]
         else if levels == 1 then s.texParams[(s.boundTexture, GenerateMipmap) := GL_TRUE]
         else s.texParams[(s.boundTexture, MaxLevel) := levels - 1])
  }

  ghost function Prepared(s: GLState, t: TextureState, textureId: nat, minFilter: int, magFilter: int, mipSize: MipSizeFn): GLState
  {
    var m := Mipmapped(SetUp(Unpacked(s), textureId, minFilter, magFilter), t.textureType, |t.buffers|);
    m.(images := WithUploads(m.images, textureId, t.width, t.height, mipSize, UploadCount(t)))
  }

  lemma RunUnpack(s: GLState)
    ensures Run(s, UnpackCalls()) == Unpacked(s)
  {
    var l := UnpackCalls();
    var p, q, r := [l[0], l[1]], [l[2], l[3]], [l[4], l[5]];
    assert l == p + q + r;
    RunAppend(s, p + q, r);
    RunAppend(s, p, q);
    RunTwo(s, l[0], l[1]);
    RunTwo(Run(s, p), l[2], l[3]);
    RunTwo(Run(s, p + q), l[4], l[5]);
  }

  lemma RunSetup(s: GLState, textureId: nat, minFilter: int, magFilter: int)
    ensures Run(s, SetupCalls(textureId, minFilter, magFilter)) == SetUp(s, textureId, minFilter, magFilter)
  {
    var l := SetupCalls(textureId, minFilter, magFilter);
    var p, q, r := [l[0]], [l[1], l[2]], [l[3], l[4]];
    assert l == p + q + r;
    RunAppend(s, p + q, r);
    RunAppend(s, p, q);
    RunOne(s, l[0]);
    RunTwo(Run(s, p), l[1], l[2]);
    RunTwo(Run(s, p + q), l[3], l[4]);
  }

  lemma RunMipmap(s: GLState, textureType: TextureType, levels: nat)
    ensures Run(s, MipmapCalls(textureType, levels)) == Mipmapped(s, textureType, levels)
  {
    var l := MipmapCalls(textureType, levels);
    if textureType == Masked {
      var p, q := [l[0]], [l[1], l[2]];
      assert l == p + q;
      RunAppend(s, p, q);
      RunOne(s, l[0]);
      RunTwo(Run(s, p), l[1], l[2]);
    } else {
      RunOne(s, l[0]);
    }
  }

  /** Running the calls of `prepare` goes through the four steps in order. */
  lemma RunPrepare(s: GLState, t: TextureState, textureId: nat, minFilter: int, magFilter: int, mipSize: MipSizeFn)
    requires t.buffers != []
    ensures Run(s, PrepareCalls(t, textureId, minFilter, magFilter, mipSize)) ==
      Prepared(s, t, textureId, minFilter, magFilter, mipSize)
  {
    var u := UnpackCalls();
    var st := SetupCalls(textureId, minFilter, magFilter);
    var mm := MipmapCalls(t.textureType, |t.buffers|);
    var up := UploadCalls(t.width, t.height, t.format, mipSize, UploadCount(t));
    RunAppend(s, u + st + mm, up);
    RunAppend(s, u + st, mm);
    RunAppend(s, u, st);
    RunUnpack(s);
    RunSetup(Run(s, u), textureId, minFilter, magFilter);
    RunMipmap(Run(s, u + st), t.textureType, |t.buffers|);
    RunUploads(Run(s, u + st + mm), t.width, t.height, t.format, mipSize, UploadCount(t));
  }

  /**
    After `prepare` has uploaded a texture, the new texture object is bound
    and has the requested filters (nearest for a masked texture) and
    repeating wrap modes; rows are unpacked tightly; culling and blending
    are untouched.
   */
  lemma PrepareBindsAndFilters(s: GLState, t: TextureState, textureId: nat, minFilter: int, magFilter: int, mipSize: MipSizeFn)
    requires t.buffers != []
    ensures var r := Run(s, PrepareCalls(t, textureId, minFilter, magFilter, mipSize));
      && r.boundTexture == textureId
      && r.cullEnabled == s.cullEnabled && r.cullFace == s.cullFace
      && r.color == s.color && r.attribStack == s.attribStack
      && UnpackAlignment in r.pixelStore && r.pixelStore[UnpackAlignment] == 1
      && UnpackRowLength in r.pixelStore && r.pixelStore[UnpackRowLength] == 0
      && (textureId, MinFilter) in r.texParams && (textureId, MagFilter) in r.texParams
      && r.texParams[(textureId, MinFilter)] == (if t.textureType == Masked then GL_NEAREST else minFilter)
      && r.texParams[(textureId, MagFilter)] == (if t.textureType == Masked then GL_NEAREST else magFilter)
      && (textureId, WrapS) in r.texParams && r.texParams[(textureId, WrapS)] == GL_REPEAT
      && (textureId, WrapT) in r.texParams && r.texParams[(textureId, WrapT)] == GL_REPEAT
  {
    RunPrepare(s, t, textureId, minFilter, magFilter, mipSize);
  }

  /**
    `prepare` turns off mipmap generation for a masked texture, has the GL
    generate mipmaps for an opaque texture with a single level, and
    otherwise limits the level range to the levels given.
   */
  lemma PrepareMipmapParameters(s: GLState, t: TextureState, textureId: nat, minFilter: int, magFilter: int, mipSize: MipSizeFn)
    requires t.buffers != []
    ensures var r := Run(s, PrepareCalls(t, textureId, minFilter, magFilter, mipSize));
      && (t.textureType == Masked ==>
            (textureId, GenerateMipmap) in r.texParams && r.texParams[(textureId, GenerateMipmap)] == GL_FALSE)
      && (t.textureType == Opaque && |t.buffers| == 1 ==>
            (textureId, GenerateMipmap) in r.texParams && r.texParams[(textureId, GenerateMipmap)] == GL_TRUE)
      && (t.textureType == Opaque && |t.buffers| > 1 ==>
            (textureId, MaxLevel) in r.texParams && r.texParams[(textureId, MaxLevel)] == |t.buffers| - 1)
  {
    RunPrepare(s, t, textureId, minFilter, magFilter, mipSize);
  }

  /** `prepare` gives the new texture object one image per uploaded level, of that level's size. */
  lemma PrepareStoresImages(s: GLState, t: TextureState, textureId: nat, minFilter: int, magFilter: int, mipSize: MipSizeFn)
    requires t.buffers != []
    ensures var r := Run(s, PrepareCalls(t, textureId, minFilter, magFilter, mipSize));
      forall j :: 0 <= j < UploadCount(t) ==>
        (textureId, j) in r.images && r.images[(textureId, j)] == mipSize(t.width, t.height, j)
  {
    RunPrepare(s, t, textureId, minFilter, magFilter, mipSize);
    var m := Mipmapped(SetUp(Unpacked(s), textureId, minFilter, magFilter), t.textureType, |t.buffers|);
    WithUploadsAt(m.images, textureId, t.width, t.height, mipSize, UploadCount(t));
  }

  // ---------------------------------------------------------------------------
  // The texture object.

  class Texture {
    var name: string
    var absolutePath: string
    var relativePath: string
    var width: nat
    var height: nat
    var usageCount: nat
    var overridden: bool
    var format: nat
    var textureType: TextureType
    var surfaceParms: set<string>
    var culling: TextureCulling
    var blendFunc: TextureBlendFunc
    var textureId: nat
    var buffers: seq<nat>

    /** All fields as one value. */
    function State(): TextureState
      reads this
    {
      TextureState(name, absolutePath, relativePath, width, height, usageCount, overridden, format,
                   textureType, surfaceParms, culling, blendFunc, textureId, buffers)
    }

    /**
      The one-way promise of the lifecycle: once a texture is prepared (has a
      GL texture object) it has released its buffers. Every constructor and
      mutator keeps it; it is what makes `Prepare` the only place buffers
      leave a texture.
     */
    ghost predicate Valid()
      reads this
    {
      textureId != 0 ==> buffers == []
    }

    /** A texture from a single mip level; the GL generates the others. */
    constructor FromBuffer(name: string, width: nat, height: nat, buffer: nat, format: nat,
                           textureType: TextureType, bytesPerPixelForFormat: BytesPerPixelFn)
      requires width > 0 && height > 0
      requires buffer >= width * height * bytesPerPixelForFormat(format)
      ensures Valid() && !IsPrepared()
      ensures State() == NewTextureState(name, width, height, format, textureType, [buffer])
    {
      this.name := name;
      this.absolutePath := "";
      this.relativePath := "";
      this.width := width;
      this.height := height;
      this.usageCount := 0;
      this.overridden := false;
      this.format := format;
      this.textureType := textureType;
      this.surfaceParms := {};
      this.culling := CullDefault;
      this.blendFunc := DefaultBlendFunc;
      this.textureId := 0;
      this.buffers := [buffer];
    }

    /** A texture from a list of mip levels, level 0 first. */
    constructor FromBuffers(name: string, width: nat, height: nat, buffers: seq<nat>, format: nat,
                            textureType: TextureType, bytesPerPixelForFormat: BytesPerPixelFn, mipSize: MipSizeFn)
      requires width > 0 && height > 0
      requires BuffersFit(width, height, buffers, bytesPerPixelForFormat(format), mipSize)
      ensures Valid() && !IsPrepared()
      ensures State() == NewTextureState(name, width, height, format, textureType, buffers)
    {
      this.name := name;
      this.absolutePath := "";
      this.relativePath := "";
      this.width := width;
      this.height := height;
      this.usageCount := 0;
      this.overridden := false;
      this.format := format;
      this.textureType := textureType;
      this.surfaceParms := {};
      this.culling := CullDefault;
      this.blendFunc := DefaultBlendFunc;
      this.textureId := 0;
      this.buffers := buffers;
    }

    /** A texture without image data; `prepare` never uploads anything for it. */
    constructor WithoutBuffers(name: string, width: nat, height: nat, format: nat, textureType: TextureType)
      ensures Valid() && !IsPrepared()
      ensures State() == NewTextureState(name, width, height, format, textureType, [])
    {
      this.name := name;
      this.absolutePath := "";
      this.relativePath := "";
      this.width := width;
      this.height := height;
      this.usageCount := 0;
      this.overridden := false;
      this.format := format;
      this.textureType := textureType;
      this.surfaceParms := {};
      this.culling := CullDefault;
      this.blendFunc := DefaultBlendFunc;
      this.textureId := 0;
      this.buffers := [];
    }

    /** The move constructor: takes over every field of `other`. */
    constructor MoveFrom(other: Texture)
      ensures other.Valid() ==> Valid()
      ensures State() == other.State()
    {
      this.name := other.name;
      this.absolutePath := other.absolutePath;
      this.relativePath := other.relativePath;
      this.width := other.width;
      this.height := other.height;
      this.usageCount := other.usageCount;
      this.overridden := other.overridden;
      this.format := other.format;
      this.textureType := other.textureType;
      this.surfaceParms := other.surfaceParms;
      this.culling := other.culling;
      this.blendFunc := other.blendFunc;
      this.textureId := other.textureId;
      this.buffers := other.buffers;
    }

    /**
      Move assignment: takes over every field of `other`. Moving a texture
      onto itself keeps only the fields that are plain values; the strings,
      the surface parameters and the buffers are then moved onto themselves,
      which leaves them unspecified.
     */
    method MoveAssign(other: Texture)
      modifies this
      ensures other != this ==> State() == old(other.State())
      ensures other != this && old(other.Valid()) ==> Valid()
      ensures width == old(other.width) && height == old(other.height) && format == old(other.format)
      ensures usageCount == old(other.usageCount) && overridden == old(other.overridden)
      ensures textureType == old(other.textureType) && culling == old(other.culling)
      ensures blendFunc == old(other.blendFunc) && textureId == old(other.textureId)
    {
      var moved := other.State();
      TakeDescription(moved);
      TakeRenderState(moved);
    }

    /** The half of a move that takes over what the texture is. */
    method TakeDescription(s: TextureState)
      modifies this`name, this`absolutePath, this`relativePath, this`width, this`height, this`format, this`surfaceParms
      ensures name == s.name && absolutePath == s.absolutePath && relativePath == s.relativePath
      ensures width == s.width && height == s.height && format == s.format && surfaceParms == s.surfaceParms
    {
      name, absolutePath, relativePath := s.name, s.absolutePath, s.relativePath;
      width, height, format, surfaceParms := s.width, s.height, s.format, s.surfaceParms;
    }

    /** The half of a move that takes over how the texture is used and rendered. */
    method TakeRenderState(s: TextureState)
      modifies this`usageCount, this`overridden, this`textureType, this`culling, this`blendFunc, this`textureId, this`buffers
      ensures usageCount == s.usageCount && overridden == s.overridden && textureType == s.textureType
      ensures culling == s.culling && blendFunc == s.blendFunc && textureId == s.textureId && buffers == s.buffers
    {
      usageCount, overridden, textureType := s.usageCount, s.overridden, s.textureType;
      culling, blendFunc, textureId, buffers := s.culling, s.blendFunc, s.textureId, s.buffers;
    }

    function Masked(): (masked: bool)
      reads this
      ensures masked <==> textureType == TextureType.Masked
    {
      textureType == TextureType.Masked
    }

    method SetOpaque()
      modifies this
      ensures old(Valid()) ==> Valid()
      ensures !Masked()
      ensures State() == old(State()).(textureType := Opaque)
    {
      textureType := Opaque;
    }

    method SetCulling(culling: TextureCulling)
      modifies this
      ensures old(Valid()) ==> Valid()
      ensures State() == old(State()).(culling := culling)
    {
      this.culling := culling;
    }

    method SetBlendFunc(srcFactor: nat, destFactor: nat)
      modifies this
      ensures old(Valid()) ==> Valid()
      ensures blendFunc == TextureBlendFunc(UseFactors, srcFactor, destFactor)
      ensures State() == old(State()).(blendFunc := TextureBlendFunc(UseFactors, srcFactor, destFactor))
    {
      blendFunc := blendFunc.(enable := UseFactors, srcFactor := srcFactor, destFactor := destFactor);
    }

    /** Switches blending off; the stored factors stay as they are. */
    method DisableBlend()
      modifies this
      ensures old(Valid()) ==> Valid()
      ensures blendFunc.enable == BlendEnable.DisableBlend
      ensures blendFunc.srcFactor == old(blendFunc.srcFactor) && blendFunc.destFactor == old(blendFunc.destFactor)
      ensures State() == old(State()).(blendFunc := old(blendFunc).(enable := BlendEnable.DisableBlend))
    {
      blendFunc := blendFunc.(enable := BlendEnable.DisableBlend);
    }

    method IncUsageCount()
      modifies this
      ensures old(Valid()) ==> Valid()
      ensures usageCount == old(usageCount) + 1
      ensures State() == old(State()).(usageCount := old(usageCount) + 1)
    {
      usageCount := usageCount + 1;
    }

    /** Only a texture that is in use may be released. */
    method DecUsageCount()
      requires usageCount > 0
      modifies this
      ensures old(Valid()) ==> Valid()
      ensures usageCount == old(usageCount) - 1
      ensures State() == old(State()).(usageCount := old(usageCount) - 1)
    {
      usageCount := usageCount - 1;
    }

    function IsPrepared(): (prepared: bool)
      reads this
      ensures prepared <==> textureId != 0
    {
      textureId != 0
    }

    /**
      Uploads the mip buffers to the GL texture object `textureId` and
      releases them. Without buffers nothing happens and the texture stays
      unprepared.
     */
    method Prepare(gl: GLContext, textureId: nat, minFilter: int, magFilter: int, mipSize: MipSizeFn)
      requires textureId > 0 && !IsPrepared()
      modifies this, gl
      ensures Valid()
      ensures gl.calls == old(gl.calls) + PrepareCalls(old(State()), textureId, minFilter, magFilter, mipSize)
      ensures old(buffers) == [] ==> State() == old(State())
      ensures old(buffers) != [] ==> State() == old(State()).(textureId := textureId, buffers := [])
      ensures IsPrepared() <==> old(buffers) != []
    {
      if buffers != [] {
        ghost var before := State();
        SetUnpackParameters(gl);
        SetTextureParameters(gl, textureId, minFilter, magFilter);
        SetMipmapParameters(gl);
        UploadMipmaps(gl, mipSize);
        assert gl.calls == old(gl.calls) + PrepareCalls(before, textureId, minFilter, magFilter, mipSize);
        buffers := [];
        this.textureId := textureId;
      }
    }

    /** The first step of `Prepare`: tightly packed, unswapped pixel rows. */
    method SetUnpackParameters(gl: GLContext)
      modifies gl
      ensures gl.calls == old(gl.calls) + UnpackCalls()
    {
      gl.Call(PixelStore(UnpackSwapBytes, GL_FALSE));
      gl.Call(PixelStore(UnpackLsbFirst, GL_FALSE));
      gl.Call(PixelStore(UnpackRowLength, 0));
      gl.Call(PixelStore(UnpackSkipPixels, 0));
      gl.Call(PixelStore(UnpackSkipRows, 0));
      gl.Call(PixelStore(UnpackAlignment, 1));
    }

    /** The second step of `Prepare`: bind the new texture object, set its filters and wrapping. */
    method SetTextureParameters(gl: GLContext, textureId: nat, minFilter: int, magFilter: int)
      modifies gl
      ensures gl.calls == old(gl.calls) + SetupCalls(textureId, minFilter, magFilter)
    {
      gl.Call(BindTexture(textureId));
      gl.Call(TexParameter(MinFilter, minFilter));
      gl.Call(TexParameter(MagFilter, magFilter));
      gl.Call(TexParameter(WrapS, GL_REPEAT));
      gl.Call(TexParameter(WrapT, GL_REPEAT));
    }

    /** The third step of `Prepare`: how the levels beyond the first are obtained. */
    method SetMipmapParameters(gl: GLContext)
      modifies gl
      ensures gl.calls == old(gl.calls) + MipmapCalls(textureType, |buffers|)
    {
      if textureType == TextureType.Masked {
        // masked textures get no generated mipmaps and nearest filtering
        gl.Call(TexParameter(GenerateMipmap, GL_FALSE));
        gl.Call(TexParameter(MinFilter, GL_NEAREST));
        gl.Call(TexParameter(MagFilter, GL_NEAREST));
      } else if |buffers| == 1 {
        gl.Call(TexParameter(GenerateMipmap, GL_TRUE));
      } else {
        gl.Call(TexParameter(MaxLevel, |buffers| - 1));
      }
    }

    /** The last step of `Prepare`: one upload per level, only the first for a masked texture. */
    method UploadMipmaps(gl: GLContext, mipSize: MipSizeFn)
      requires buffers != []
      modifies gl
      ensures gl.calls == old(gl.calls) + UploadCalls(width, height, format, mipSize, UploadCount(State()))
    {
      var mipmapsToUpload := if textureType == TextureType.Masked then 1 else |buffers|;
      var j := 0;
      while j < mipmapsToUpload
        invariant j <= mipmapsToUpload <= |buffers|
        invariant gl.calls == old(gl.calls) + UploadCalls(width, height, format, mipSize, j)
      {
        var size := mipSize(width, height, j);
        gl.Call(TexImage2D(j, size.0, size.1, format));
        j := j + 1;
      }
    }

    /** Sets the filters of a prepared texture; a masked one always gets nearest filtering. */
    method SetMode(gl: GLContext, minFilter: int, magFilter: int)
      modifies gl
      ensures gl.calls == old(gl.calls) + SetModeCalls(State(), minFilter, magFilter)
    {
      if IsPrepared() {
        ghost var t := State();
        Activate(gl);
        ghost var activated := gl.calls;
        InstallFilters(gl, minFilter, magFilter);
        assert gl.calls == activated + FilterCalls(t, minFilter, magFilter);
        Deactivate(gl);
        assert gl.calls == old(gl.calls) + ActivateCalls(t) + FilterCalls(t, minFilter, magFilter) + DeactivateCalls(t);
      }
    }

    /** The filter calls of `SetMode`: a masked texture always gets nearest filtering. */
    method InstallFilters(gl: GLContext, minFilter: int, magFilter: int)
      modifies gl
      ensures gl.calls == old(gl.calls) + FilterCalls(State(), minFilter, magFilter)
    {
      if textureType == TextureType.Masked {
        gl.Call(TexParameter(MinFilter, GL_NEAREST));
        gl.Call(TexParameter(MagFilter, GL_NEAREST));
      } else {
        gl.Call(TexParameter(MinFilter, minFilter));
        gl.Call(TexParameter(MagFilter, magFilter));
      }
    }

    /** Binds a prepared texture and installs its culling and blending. */
    method Activate(gl: GLContext)
      modifies gl
      ensures gl.calls == old(gl.calls) + ActivateCalls(State())
    {
      if IsPrepared() {
        gl.Call(BindTexture(textureId));
        InstallCulling(gl);
        InstallBlending(gl);
      }
    }

    /** Undoes what `Activate` did and unbinds the texture. */
    method Deactivate(gl: GLContext)
      modifies gl
      ensures gl.calls == old(gl.calls) + DeactivateCalls(State())
    {
      if IsPrepared() {
        RestoreBlending(gl);
        RestoreCulling(gl);
        gl.Call(BindTexture(0));
      }
    }

    /** The culling switch of `Activate`. */
    method InstallCulling(gl: GLContext)
      modifies gl
      ensures gl.calls == old(gl.calls) + CullOnCalls(culling)
    {
      match culling {
        case CullNone => gl.Call(Disable(CullFaceCap));
        case CullFront => gl.Call(CullFace(Front));
        case CullBoth => gl.Call(CullFace(FrontAndBack));
        case CullDefault =>
        case CullBack =>
      }
    }

    /** The blending part of `Activate`: save the colour-buffer state, then change it. */
    method InstallBlending(gl: GLContext)
      modifies gl
      ensures gl.calls == old(gl.calls) + BlendOnCalls(blendFunc)
    {
      if blendFunc.enable != UseDefault {
        gl.Call(PushColorBufferAttrib);
        if blendFunc.enable == UseFactors {
          gl.Call(BlendFunc(blendFunc.srcFactor, blendFunc.destFactor));
        } else {
          gl.Call(Disable(BlendCap));
        }
      }
    }

    /** The blending part of `Deactivate`: restore the saved colour-buffer state. */
    method RestoreBlending(gl: GLContext)
      modifies gl
      ensures gl.calls == old(gl.calls) + BlendOffCalls(blendFunc)
    {
      if blendFunc.enable != UseDefault {
        gl.Call(PopAttrib);
      }
    }

    /** The culling switch of `Deactivate`: back to culling back faces. */
    method RestoreCulling(gl: GLContext)
      modifies gl
      ensures gl.calls == old(gl.calls) + CullOffCalls(culling)
    {
      match culling {
        case CullNone => gl.Call(Enable(CullFaceCap));
        case CullFront => gl.Call(CullFace(Back));
        case CullBoth => gl.Call(CullFace(Back));
        case CullDefault =>
        case CullBack =>
      }
    }
  }
}
