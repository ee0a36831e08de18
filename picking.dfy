/**
 * GPU picking: `picking.PickedPixel`, the three floats read back from the
 * picking framebuffer, and `picking.PickingEngine`, which owns that
 * framebuffer and reads one pixel of it under the mouse.
 *
 * OpenGL is represented by the bindings the engine changes (draw and read
 * framebuffer, read buffer, bound texture) and the objects it deletes. The
 * answers OpenGL gives (generated ids, framebuffer completeness, the error
 * flag, the texel under a pixel) are parameters.
 */
module Picking {
  import opened Common

  /** The sample of one pixel: entity number, draw index and primitive index. */
  datatype PickedPixel = PickedPixel(objectId: real, drawId: real, primId: real)

  /** `new PickedPixel(buffer)`: elements 0, 1 and 2 of the buffer; a shorter buffer throws. */
  function FromBuffer(buffer: seq<real>): (r: Result<PickedPixel>)
    ensures |buffer| >= 3 <==> r.Ok?
    ensures r.Ok? ==> r.value.objectId == buffer[0] && r.value.drawId == buffer[1]
                      && r.value.primId == buffer[2]
    ensures r.Err? ==> r.error == IndexOutOfBounds
  {
    if |buffer| < 3 then Err(IndexOutOfBounds)
    else Ok(PickedPixel(buffer[0], buffer[1], buffer[2]))
  }

  /** The RGB float layout the picking shader writes for a sample. */
  function Samples(p: PickedPixel): seq<real> {
    [p.objectId, p.drawId, p.primId]
  }

  /** Reading back what the shader wrote gives the same three values. */
  lemma FromBufferInvertsSamples(p: PickedPixel)
    ensures FromBuffer(Samples(p)) == Ok(p)
  {
  }

  /** Elements past the third are ignored. */
  lemma FromBufferIgnoresRest(buffer: seq<real>, rest: seq<real>)
    requires |buffer| >= 3
    ensures FromBuffer(buffer + rest) == FromBuffer(buffer)
  {
  }

  /** `readPixel`'s flip of a window row (origin top left) to a texture row (origin bottom left). */
  function FlipY(height: int, y: int): (r: int)
    ensures r + y == height
    ensures 0 <= y < height ==> 0 < r <= height
    ensures y == 0 ==> r == height
  {
    height - y
  }

  /**
   * The flip as written sends the window rows 0 .. height-1 to 1 .. height:
   * the top row of the window samples row `height`, which is outside the
   * texture, and texture row 0 is never sampled.
   */
  lemma FlipYMissesByOne(height: int, y: int)
    requires 0 <= y < height
    ensures 0 < FlipY(height, y) <= height
    ensures y == 0 ==> FlipY(height, y) == height
  {
  }

  /** The flip as evidently intended: row `y` from the top is row `height - 1 - y` from the bottom. */
  function FlipYCorrected(height: int, y: int): (r: int)
    ensures r + y == height - 1
    ensures 0 <= y < height ==> 0 <= r < height
  {
    height - 1 - y
  }

  /** The corrected flip maps the window rows onto the texture rows, one to one. */
  lemma FlipYCorrectedIsBijection(height: int, y: int)
    requires 0 <= y < height
    ensures 0 <= FlipYCorrected(height, y) < height
    ensures FlipYCorrected(height, FlipYCorrected(height, y)) == y
  {
  }

  /** The source a `glReadPixels` reads from. */
  datatype ReadSource = NoBuffer | ColorAttachment0

  /** The picking texture: the RGB floats at column `x`, texture row `y`. */
  type Texels = (int, int) -> Vec3

  /** The engine's fields (static in the source) and the OpenGL state it changes. */
  datatype EngineState = EngineState(
    width: int, height: int,
    fboId: int, pickingTextureId: int, depthTextureId: int,
    drawFramebuffer: int, readFramebuffer: int,
    readSource: ReadSource, boundTexture: int,
    deletedTextures: seq<int>, deletedFramebuffers: seq<int>)

  /**
   * The state after `init` or the body of `regenerateTextures`: the
   * framebuffer is bound for reading and drawing, the new texture ids are
   * stored, reading is switched off, the texture unbound; when the framebuffer
   * is complete it is unbound again, otherwise it stays bound.
   */
  function Attached(s: EngineState, pickTex: int, depthTex: int, complete: bool): (t: EngineState)
    ensures t.pickingTextureId == pickTex && t.depthTextureId == depthTex
    ensures t.readSource == NoBuffer && t.boundTexture == 0
    ensures complete ==> t.drawFramebuffer == 0 && t.readFramebuffer == 0
    ensures !complete ==> t.drawFramebuffer == s.fboId && t.readFramebuffer == s.fboId
    ensures t.width == s.width && t.height == s.height && t.fboId == s.fboId
    ensures t.deletedTextures == s.deletedTextures && t.deletedFramebuffers == s.deletedFramebuffers
  {
    var bound := if complete then 0 else s.fboId;
    s.(pickingTextureId := pickTex, depthTextureId := depthTex,
       readSource := NoBuffer, boundTexture := 0,
       drawFramebuffer := bound, readFramebuffer := bound)
  }

  class PickingEngine {
    var width: int
    var height: int
    var fboId: int
    var pickingTextureId: int
    var depthTextureId: int
    var drawFramebuffer: int
    var readFramebuffer: int
    var readSource: ReadSource
    var boundTexture: int
    var deletedTextures: seq<int>
    var deletedFramebuffers: seq<int>

    function State(): EngineState
      reads this
    {
      EngineState(width, height, fboId, pickingTextureId, depthTextureId,
                  drawFramebuffer, readFramebuffer, readSource, boundTexture,
                  deletedTextures, deletedFramebuffers)
    }

    /**
     * Stores the window size and runs `init` with the framebuffer and texture
     * ids OpenGL hands out; `init`'s verdict is dropped.
     */
    constructor (windowWidth: int, windowHeight: int, fbo: int, pickTex: int, depthTex: int,
                 complete: bool, noError: bool)
      ensures width == windowWidth && height == windowHeight && fboId == fbo
      ensures State() == Attached(State().(drawFramebuffer := fbo, readFramebuffer := fbo),
                                  pickTex, depthTex, complete)
      ensures deletedTextures == [] && deletedFramebuffers == []
    {
      width := windowWidth;
      height := windowHeight;
      fboId := 0;
      pickingTextureId := 0;
      depthTextureId := 0;
      drawFramebuffer := 0;
      readFramebuffer := 0;
      readSource := NoBuffer;
      boundTexture := 0;
      deletedTextures := [];
      deletedFramebuffers := [];
      new;
      var _ := Init(fbo, pickTex, depthTex, complete, noError);
    }

    /**
     * Creates and binds the framebuffer, attaches both textures and checks
     * completeness: false (framebuffer left bound) when incomplete, otherwise
     * unbinds and reports whether OpenGL's error flag was clear.
     */
    method Init(fbo: int, pickTex: int, depthTex: int, complete: bool, noError: bool) returns (ok: bool)
      modifies this
      ensures ok <==> complete && noError
      ensures fboId == fbo
      ensures State() == Attached(old(State()).(fboId := fbo, drawFramebuffer := fbo, readFramebuffer := fbo),
                                  pickTex, depthTex, complete)
    {
      fboId := fbo;
      drawFramebuffer := fbo;
      readFramebuffer := fbo;
      pickingTextureId := pickTex;
      depthTextureId := depthTex;
      readSource := NoBuffer;
      boundTexture := 0;
      if !complete {
        return false;
      }
      drawFramebuffer := 0;
      readFramebuffer := 0;
      ok := noError;
    }

    /**
     * For a new window size: records the size, deletes both textures,
     * rebinds the framebuffer and attaches new textures; an incomplete
     * framebuffer ends the call early with the framebuffer still bound.
     */
    method RegenerateTextures(windowWidth: int, windowHeight: int, pickTex: int, depthTex: int, complete: bool)
      modifies this
      ensures width == windowWidth && height == windowHeight
      ensures deletedTextures == old(deletedTextures) + [old(pickingTextureId), old(depthTextureId)]
      ensures State() == Attached(old(State()).(width := windowWidth, height := windowHeight,
                                                deletedTextures := deletedTextures,
                                                drawFramebuffer := fboId, readFramebuffer := fboId),
                                  pickTex, depthTex, complete)
    {
      width := windowWidth;
      height := windowHeight;
      deletedTextures := deletedTextures + [pickingTextureId, depthTextureId];
      drawFramebuffer := fboId;
      readFramebuffer := fboId;
      pickingTextureId := pickTex;
      depthTextureId := depthTex;
      readSource := NoBuffer;
      boundTexture := 0;
      if !complete {
        return;
      }
      drawFramebuffer := 0;
      readFramebuffer := 0;
    }

    /** Deletes both textures and the framebuffer; always reports success. */
    method Cleanup() returns (ok: bool)
      modifies this
      ensures ok
      ensures State() == old(State()).(
                deletedTextures := old(deletedTextures) + [old(pickingTextureId), old(depthTextureId)],
                deletedFramebuffers := old(deletedFramebuffers) + [old(fboId)])
    {
      deletedTextures := deletedTextures + [pickingTextureId, depthTextureId];
      deletedFramebuffers := deletedFramebuffers + [fboId];
      ok := true;
    }

    /** Directs drawing into the picking framebuffer. */
    method EnableWriting()
      modifies this
      ensures State() == old(State()).(drawFramebuffer := fboId)
    {
      drawFramebuffer := fboId;
    }

    /** Directs drawing back to the window. */
    method DisableWriting()
      modifies this
      ensures State() == old(State()).(drawFramebuffer := 0)
    {
      drawFramebuffer := 0;
    }

    /**
     * Reads the sample under window pixel (x, y). An incomplete framebuffer
     * gives null and changes nothing; otherwise the texel at column x, row
     * `FlipY(height, y)` is decoded, and reading is switched off and the
     * read framebuffer unbound again.
     */
    method ReadPixel(viewPortX: int, viewPortY: int, complete: bool, texels: Texels)
      returns (pick: Option<PickedPixel>)
      modifies this
      ensures !complete ==> pick == None && State() == old(State())
      ensures complete ==> var t := texels(viewPortX, FlipY(height, viewPortY));
                           pick == Some(PickedPixel(t.x, t.y, t.z))
      ensures complete ==> State() == old(State()).(readFramebuffer := 0, readSource := NoBuffer)
    {
      if !complete {
        return None;
      }
      readFramebuffer := fboId;
      readSource := ColorAttachment0;
      var row := FlipY(height, viewPortY);
      var texel := texels(viewPortX, row);
      var pixelBuffer := [texel.x, texel.y, texel.z];
      readSource := NoBuffer;
      readFramebuffer := 0;
      var decoded := FromBuffer(pixelBuffer);
      pick := Some(decoded.value);
    }
  }
}
