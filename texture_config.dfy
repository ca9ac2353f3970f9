/**
 * texture-config.ts: the storage format and filtering of simulation textures, chosen from the
 * extensions the context reports. Full 32-bit float needs both linear filtering and rendering
 * of float textures; otherwise half float is used when it can be filtered, else plain bytes.
 */
module TextureConfig {
  import opened WebGL

  datatype TextureConfigOptions = TextureConfigOptions(
    internalFormat: int,
    format: int,
    pixelType: int,   // `type` in the source
    filterMode: int
  )

  /**
   * getTextureConfig. The half-float type is the extension object's HALF_FLOAT_OES constant,
   * which is non-zero, so the `|| gl.HALF_FLOAT` alternative is never taken.
   */
  function GetTextureConfig(ext: Extensions): (c: TextureConfigOptions)
    ensures c.format == RGBA
    ensures (c.internalFormat == RGBA32F) <==> ext.floatLinear && ext.colorBufferFloat
    ensures c.internalFormat == RGBA32F ==> c.pixelType == FLOAT
    ensures c.internalFormat == RGBA16F
      <==> !(ext.floatLinear && ext.colorBufferFloat) && ext.halfFloat && ext.halfFloatLinear
    ensures c.internalFormat == RGBA16F ==> c.pixelType == HALF_FLOAT_OES
    ensures c.internalFormat in {RGBA32F, RGBA16F, RGBA}
    ensures c.internalFormat == RGBA ==> c.pixelType == UNSIGNED_BYTE
    ensures c.filterMode == NEAREST <==> !ext.floatLinear && !ext.halfFloatLinear
    ensures c.filterMode in {NEAREST, LINEAR}
  {
    var (internalFormat, pixelType) :=
      if ext.floatLinear && ext.colorBufferFloat then (RGBA32F, FLOAT)
      else if ext.halfFloat && ext.halfFloatLinear then (RGBA16F, HALF_FLOAT_OES)
      else (RGBA, UNSIGNED_BYTE);
    var filterMode := if !ext.floatLinear && !ext.halfFloatLinear then NEAREST else LINEAR;
    TextureConfigOptions(internalFormat, RGBA, pixelType, filterMode)
  }

  /** The byte fallback RGBA/UNSIGNED_BYTE that texture creation retries with. */
  predicate IsBasic(internalFormat: int, pixelType: int) {
    internalFormat == RGBA && pixelType == UNSIGNED_BYTE
  }

  /**
   * The choice never asks for filtering the context cannot do: a float format is only picked
   * when its linear-filtering extension is present, so LINEAR is safe whenever it is chosen;
   * NEAREST is chosen only for the byte format.
   */
  lemma ConfigIsFilterable(ext: Extensions)
    ensures GetTextureConfig(ext).internalFormat == RGBA32F ==> ext.floatLinear
    ensures GetTextureConfig(ext).internalFormat == RGBA16F ==> ext.halfFloatLinear
    ensures GetTextureConfig(ext).filterMode == NEAREST
      ==> IsBasic(GetTextureConfig(ext).internalFormat, GetTextureConfig(ext).pixelType)
  {
  }

  /** With no extension at all the configuration is the byte format with NEAREST filtering. */
  lemma NoExtensions()
    ensures GetTextureConfig(Extensions(false, false, false, false))
         == TextureConfigOptions(RGBA, RGBA, UNSIGNED_BYTE, NEAREST)
  {
  }
}
