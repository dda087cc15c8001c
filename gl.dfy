/**
  The part of OpenGL that textures talk to, as data.

  Every GL entry point a texture calls is a token of `GLCall`; a `GLContext` is
  the log of the calls issued so far. `Apply` and `Run` give the tokens a
  meaning on an abstract server state that has just the pieces of GL state the
  texture code touches, so that claims such as "deactivating undoes what
  activating did" can be stated as equalities of states.
 */
module OpenGL {

  // Enumerant values as defined by the OpenGL specification.
  const GL_NEAREST: int := 0x2600
  const GL_REPEAT: int := 0x2901
  const GL_FALSE: int := 0
  const GL_TRUE: int := 1
  const GL_SRC_ALPHA: nat := 0x0302
  const GL_ONE_MINUS_SRC_ALPHA: nat := 0x0303

  /** Server-side capabilities switched with glEnable / glDisable. */
  datatype Capability = CullFaceCap | BlendCap

  /** Arguments of glCullFace. */
  datatype Face = Front | Back | FrontAndBack

  /** The pixel-unpack parameters set with glPixelStorei. */
  datatype PixelStoreParam =
    | UnpackSwapBytes | UnpackLsbFirst | UnpackRowLength
    | UnpackSkipPixels | UnpackSkipRows | UnpackAlignment

  /** The GL_TEXTURE_2D parameters set with glTexParameteri. */
  datatype TexParam = MinFilter | MagFilter | WrapS | WrapT | GenerateMipmap | MaxLevel

  /** One call into the GL, with the arguments that matter to the model. */
  datatype GLCall =
    | PixelStore(storeParam: PixelStoreParam, storeValue: int)        // glPixelStorei
    | BindTexture(texture: nat)                                       // glBindTexture(GL_TEXTURE_2D, texture)
    | TexParameter(texParam: TexParam, texValue: int)                 // glTexParameteri(GL_TEXTURE_2D, ...)
    | TexImage2D(level: nat, width: nat, height: nat, format: nat)   // glTexImage2D(GL_TEXTURE_2D, level, GL_RGBA, ...)
    | Enable(enableCap: Capability)                                   // glEnable
    | Disable(disableCap: Capability)                                 // glDisable
    | CullFace(face: Face)                                            // glCullFace
    | PushColorBufferAttrib                                           // glPushAttrib(GL_COLOR_BUFFER_BIT)
    | PopAttrib                                                       // glPopAttrib
    | BlendFunc(srcFactor: nat, destFactor: nat)                      // glBlendFunc

  /** The GL context: the calls issued to it, oldest first. */
  class GLContext {
    var calls: seq<GLCall>

    constructor ()
      ensures calls == []
    {
      calls := [];
    }

    /** Issues one call. */
    method Call(c: GLCall)
      modifies this
      ensures calls == old(calls) + [c]
    {
      calls := calls + [c];
    }
  }

  /** The blending state that glPushAttrib(GL_COLOR_BUFFER_BIT) saves. */
  datatype ColorBufferState = ColorBufferState(blendEnabled: bool, blendSrc: nat, blendDest: nat)

  /** The abstract GL server state the texture code reads and writes. */
  datatype GLState = GLState(
    boundTexture: nat,
    cullEnabled: bool,
    cullFace: Face,
    color: ColorBufferState,
    attribStack: seq<ColorBufferState>,
    pixelStore: map<PixelStoreParam, int>,
    texParams: map<(nat, TexParam), int>,       // (texture object, parameter) to value
    images: map<(nat, nat), (nat, nat)>         // (texture object, mip level) to image size
  )

  /** The effect of one call on the server state. */
  function Apply(s: GLState, c: GLCall): GLState
  {
    match c
    case PixelStore(p, v) => s.(pixelStore := s.pixelStore[p := v])
    case BindTexture(t) => s.(boundTexture := t)
    case TexParameter(p, v) => s.(texParams := s.texParams[(s.boundTexture, p) := v])
    case TexImage2D(level, w, h, _) => s.(images := s.images[(s.boundTexture, level) := (w, h)])
    case Enable(CullFaceCap) => s.(cullEnabled := true)
    case Enable(BlendCap) => s.(color := s.color.(blendEnabled := true))
    case Disable(CullFaceCap) => s.(cullEnabled := false)
    case Disable(BlendCap) => s.(color := s.color.(blendEnabled := false))
    case CullFace(f) => s.(cullFace := f)
    case PushColorBufferAttrib => s.(attribStack := s.attribStack + [s.color])
    case PopAttrib =>
      // popping an empty attribute stack is a GL_STACK_UNDERFLOW error and changes nothing
      if s.attribStack == [] then s
      else s.(color := s.attribStack[|s.attribStack| - 1],
              attribStack := s.attribStack[..|s.attribStack| - 1])
    case BlendFunc(src, dst) => s.(color := s.color.(blendSrc := src, blendDest := dst))
  }

  /** The effect of a sequence of calls, issued in order. */
  function Run(s: GLState, calls: seq<GLCall>): GLState
    decreases |calls|
  {
    if calls == [] then s else Run(Apply(s, calls[0]), calls[1..])
  }

  /** Issuing `a` and then `b` is issuing `a + b`. */
  lemma {:induction false} RunAppend(s: GLState, a: seq<GLCall>, b: seq<GLCall>)
    ensures Run(s, a + b) == Run(Run(s, a), b)
    decreases |a|
  {
    if a == [] {
      assert a + b == b;
    } else {
      assert (a + b)[1..] == a[1..] + b;
      RunAppend(Apply(s, a[0]), a[1..], b);
    }
  }

  /** Running one call is applying it. */
  lemma RunOne(s: GLState, c: GLCall)
    ensures Run(s, [c]) == Apply(s, c)
  {
    assert [c][1..] == [];
  }

  /** Running two calls applies them in order. */
  lemma RunTwo(s: GLState, c: GLCall, d: GLCall)
    ensures Run(s, [c, d]) == Apply(Apply(s, c), d)
  {
    RunAppend(s, [c], [d]);
    assert [c] + [d] == [c, d];
    RunOne(s, c);
    RunOne(Apply(s, c), d);
  }
}
