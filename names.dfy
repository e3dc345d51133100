/** The OFX names the host uses: property keys, action names, parameter
    types, contexts and enumerated values. Each is the content of the
    string, without its terminator. */
module Names {
  import opened Machine

  // Property keys
  const PropName: Bytes := "OfxPropName"
  const PropType: Bytes := "OfxPropType"
  const PropTime: Bytes := "OfxPropTime"
  const PropChangeReason: Bytes := "OfxPropChangeReason"
  const ParamPropType: Bytes := "OfxParamPropType"
  const ParamPropDefault: Bytes := "OfxParamPropDefault"
  const PluginPropFilePath: Bytes := "OfxPluginPropFilePath"
  const ImageEffectPropContext: Bytes := "OfxImageEffectPropContext"
  const ImageEffectPropSupportedContexts: Bytes := "OfxImageEffectPropSupportedContexts"
  const ImageEffectPropSupportedPixelDepths: Bytes := "OfxImageEffectPropSupportedPixelDepths"
  const ImageEffectPropPixelDepth: Bytes := "OfxImageEffectPropPixelDepth"
  const ImageEffectPropComponents: Bytes := "OfxImageEffectPropComponents"
  const ImageEffectPropFrameRate: Bytes := "OfxImageEffectPropFrameRate"
  const ImageEffectPropFrameRange: Bytes := "OfxImageEffectPropFrameRange"
  const ImageEffectPropPreMultiplication: Bytes := "OfxImageEffectPropPreMultiplication"
  const ImageEffectPropRenderScale: Bytes := "OfxImageEffectPropRenderScale"
  const ImageEffectInstancePropEffectDuration: Bytes := "OfxImageEffectInstancePropEffectDuration"
  const ImagePropPixelAspectRatio: Bytes := "OfxImagePropPixelAspectRatio"
  const ImagePropData: Bytes := "OfxImagePropData"
  const ImagePropBounds: Bytes := "OfxImagePropBounds"
  const ImagePropRegionOfDefinition: Bytes := "OfxImagePropRegionOfDefinition"
  const ImagePropRowBytes: Bytes := "OfxImagePropRowBytes"
  const ImagePropField: Bytes := "OfxImagePropField"
  const ImageClipPropConnected: Bytes := "OfxImageClipPropConnected"

  // Property values
  const TypeImage: Bytes := "OfxTypeImage"
  const TypeParameter: Bytes := "OfxTypeParameter"
  const ChangeUserEdited: Bytes := "OfxChangeUserEdited"
  const BitDepthFloat: Bytes := "OfxBitDepthFloat"
  const ImageComponentRGBA: Bytes := "OfxImageComponentRGBA"
  const ImagePreMultiplied: Bytes := "OfxImageAlphaPremultiplied"
  const ImageFieldNone: Bytes := "OfxFieldNone"

  // Actions
  const ActionLoad: Bytes := "OfxActionLoad"
  const ActionDescribe: Bytes := "OfxActionDescribe"
  const ActionUnload: Bytes := "OfxActionUnload"
  const ActionCreateInstance: Bytes := "OfxActionCreateInstance"
  const ActionDestroyInstance: Bytes := "OfxActionDestroyInstance"
  const ActionInstanceChanged: Bytes := "OfxActionInstanceChanged"
  const ActionBeginInstanceChanged: Bytes := "OfxActionBeginInstanceChanged"
  const ActionEndInstanceChanged: Bytes := "OfxActionEndInstanceChanged"
  const ImageEffectActionDescribeInContext: Bytes := "OfxImageEffectActionDescribeInContext"

  // Parameter types
  const ParamTypeBoolean: Bytes := "OfxParamTypeBoolean"
  const ParamTypeChoice: Bytes := "OfxParamTypeChoice"
  const ParamTypeCustom: Bytes := "OfxParamTypeCustom"
  const ParamTypeDouble: Bytes := "OfxParamTypeDouble"
  const ParamTypeDouble2D: Bytes := "OfxParamTypeDouble2D"
  const ParamTypeDouble3D: Bytes := "OfxParamTypeDouble3D"
  const ParamTypeGroup: Bytes := "OfxParamTypeGroup"
  const ParamTypeInteger: Bytes := "OfxParamTypeInteger"
  const ParamTypeInteger2D: Bytes := "OfxParamTypeInteger2D"
  const ParamTypeInteger3D: Bytes := "OfxParamTypeInteger3D"
  const ParamTypePage: Bytes := "OfxParamTypePage"
  const ParamTypeParametric: Bytes := "OfxParamTypeParametric"
  const ParamTypePushButton: Bytes := "OfxParamTypePushButton"
  const ParamTypeRGB: Bytes := "OfxParamTypeRGB"
  const ParamTypeRGBA: Bytes := "OfxParamTypeRGBA"
  const ParamTypeString: Bytes := "OfxParamTypeString"

  // Contexts
  const ImageEffectContextFilter: Bytes := "OfxImageEffectContextFilter"
  const ImageEffectContextGeneral: Bytes := "OfxImageEffectContextGeneral"
  const ImageEffectContextGenerator: Bytes := "OfxImageEffectContextGenerator"
  const ImageEffectContextPaint: Bytes := "OfxImageEffectContextPaint"
  const ImageEffectContextRetimer: Bytes := "OfxImageEffectContextRetimer"
  const ImageEffectContextTransition: Bytes := "OfxImageEffectContextTransition"

  /** The name, type and default keys of a parameter descriptor are
      three different keys. */
  lemma DescriptorKeysDiffer()
    ensures PropName != ParamPropType && ParamPropDefault != PropName && ParamPropDefault != ParamPropType
  {
    assert |PropName| == 11 && |ParamPropType| == 16 && |ParamPropDefault| == 19;
  }
}
