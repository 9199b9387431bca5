/**
  The registry keys of the element names registered by the built-in block of
  packages/runtime/src/registry.ts, in the order the block registers them. Each key is
  worked out from its element name in a lemma of its own.
*/
module BuiltInKeys {
  import opened ElementNames

  /** The key of each built-in element name, in registration order. */
  const BuiltInKeyList: seq<string> := [
    "absolutelayout", "docklayout", "flexboxlayout", "gridlayout", "stacklayout",
    "wraplayout", "contentview", "scrollview", "internalactionbar", "actionitem",
    "navigationbutton", "frame", "page", "htmlview", "webview",
    "activityindicator", "button", "datepicker", "image", "label"
  ]

  /** No key occurs twice in the list. */
  lemma KeyListDistinct()
    ensures |BuiltInKeyList| == 20
    ensures forall i, j :: 0 <= i < j < |BuiltInKeyList| ==> BuiltInKeyList[i] != BuiltInKeyList[j]
  {
  }

  lemma AbsoluteLayoutKey()
    ensures NormalizeElementName("AbsoluteLayout") == BuiltInKeyList[0]
  {
    KeyOfHyphenFreeName("AbsoluteLayout", BuiltInKeyList[0]);
  }

  lemma DockLayoutKey()
    ensures NormalizeElementName("DockLayout") == BuiltInKeyList[1]
  {
    KeyOfHyphenFreeName("DockLayout", BuiltInKeyList[1]);
  }

  lemma FlexboxLayoutKey()
    ensures NormalizeElementName("FlexboxLayout") == BuiltInKeyList[2]
  {
    KeyOfHyphenFreeName("FlexboxLayout", BuiltInKeyList[2]);
  }

  lemma GridLayoutKey()
    ensures NormalizeElementName("GridLayout") == BuiltInKeyList[3]
  {
    KeyOfHyphenFreeName("GridLayout", BuiltInKeyList[3]);
  }

  lemma StackLayoutKey()
    ensures NormalizeElementName("StackLayout") == BuiltInKeyList[4]
  {
    ElementNames.StackLayoutKey();
    StackLayoutListed();
  }

  lemma StackLayoutListed()
    ensures BuiltInKeyList[4] == "stacklayout"
  {
  }

  lemma WrapLayoutKey()
    ensures NormalizeElementName("WrapLayout") == BuiltInKeyList[5]
  {
    KeyOfHyphenFreeName("WrapLayout", BuiltInKeyList[5]);
  }

  lemma ContentViewKey()
    ensures NormalizeElementName("ContentView") == BuiltInKeyList[6]
  {
    KeyOfHyphenFreeName("ContentView", BuiltInKeyList[6]);
  }

  lemma ScrollViewKey()
    ensures NormalizeElementName("ScrollView") == BuiltInKeyList[7]
  {
    KeyOfHyphenFreeName("ScrollView", BuiltInKeyList[7]);
  }

  lemma InternalActionBarKey()
    ensures NormalizeElementName("InternalActionBar") == BuiltInKeyList[8]
  {
    KeyOfHyphenFreeName("InternalActionBar", BuiltInKeyList[8]);
  }

  lemma ActionItemKey()
    ensures NormalizeElementName("ActionItem") == BuiltInKeyList[9]
  {
    KeyOfHyphenFreeName("ActionItem", BuiltInKeyList[9]);
  }

  lemma NavigationButtonKey()
    ensures NormalizeElementName("NavigationButton") == BuiltInKeyList[10]
  {
    KeyOfHyphenFreeName("NavigationButton", BuiltInKeyList[10]);
  }

  lemma FrameKey()
    ensures NormalizeElementName("Frame") == BuiltInKeyList[11]
  {
    KeyOfHyphenFreeName("Frame", BuiltInKeyList[11]);
  }

  lemma PageKey()
    ensures NormalizeElementName("Page") == BuiltInKeyList[12]
  {
    KeyOfHyphenFreeName("Page", BuiltInKeyList[12]);
  }

  lemma HtmlViewKey()
    ensures NormalizeElementName("HtmlView") == BuiltInKeyList[13]
  {
    KeyOfHyphenFreeName("HtmlView", BuiltInKeyList[13]);
  }

  lemma WebViewKey()
    ensures NormalizeElementName("WebView") == BuiltInKeyList[14]
  {
    KeyOfHyphenFreeName("WebView", BuiltInKeyList[14]);
  }

  lemma ActivityIndicatorKey()
    ensures NormalizeElementName("ActivityIndicator") == BuiltInKeyList[15]
  {
    KeyOfHyphenFreeName("ActivityIndicator", BuiltInKeyList[15]);
  }

  lemma ButtonKey()
    ensures NormalizeElementName("Button") == BuiltInKeyList[16]
  {
    KeyOfHyphenFreeName("Button", BuiltInKeyList[16]);
  }

  lemma DatePickerKey()
    ensures NormalizeElementName("DatePicker") == BuiltInKeyList[17]
  {
    KeyOfHyphenFreeName("DatePicker", BuiltInKeyList[17]);
  }

  lemma ImageKey()
    ensures NormalizeElementName("Image") == BuiltInKeyList[18]
  {
    KeyOfHyphenFreeName("Image", BuiltInKeyList[18]);
  }

  lemma LabelKey()
    ensures NormalizeElementName("Label") == BuiltInKeyList[19]
  {
    KeyOfHyphenFreeName("Label", BuiltInKeyList[19]);
  }
}
