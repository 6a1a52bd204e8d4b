/** Colour normalisation: the decoder's 8-character ARGB texts become `#RRGGBB`,
    and a colour equal to an attribute's default is dropped. */
module Colors {
  import opened Wrappers
  import opened Text

  /** `format_color_hex`: an 8-character ARGB text loses its alpha pair and gains
      a `#`; a text of any other length gives `None`. */
  function FormatColorHex(argb: string): (r: Option<string>)
    ensures r.Some? <==> |argb| == 8
    ensures r.Some? ==> |r.value| == 7 && r.value[0] == '#'
  {
    if |argb| == 8 then Some("#" + argb[2..]) else None
  }

  /** Whatever the alpha pair, the converted colour is `#` and the six RGB digits. */
  lemma AlphaDropped(alpha: string, rgb: string)
    requires |alpha| == 2 && |rgb| == 6
    ensures FormatColorHex(alpha + rgb) == Some("#" + rgb)
  {
    assert (alpha + rgb)[2..] == rgb;
  }

  lemma AlphaDroppedExample()
    ensures FormatColorHex("FFAABBCC") == Some("#AABBCC")
    ensures FormatColorHex("AABBCC") == None
  {
    assert "FFAABBCC" == "FF" + "AABBCC";
    AlphaDropped("FF", "AABBCC");
    assert "#" + "AABBCC" == "#AABBCC";
  }

  /** The colour a style attribute emits: the converted colour, unless its
      upper-cased form is the attribute's default. */
  function KeptColor(argb: string, default: string): Option<string>
  {
    var hex := FormatColorHex(argb);
    if hex.Some? && Upper(hex.value) != default then hex else None
  }

  const BLACK: string := "#000000"
  const WHITE: string := "#FFFFFF"

  lemma LowerHash(x: string)
    ensures Lower("#" + x) == "#" + Lower(x)
  {
    assert Lower("#" + x)[0] == LowerChar('#');
    forall k | 1 <= k < |x| + 1 ensures Lower("#" + x)[k] == ("#" + Lower(x))[k] {
      assert ("#" + x)[k] == x[k - 1];
    }
  }

  /** A font or border colour is dropped exactly when its RGB digits are `000000`
      (there are no letters to compare case-insensitively). */
  lemma BlackKept(argb: string)
    ensures KeptColor(argb, BLACK).Some? <==> |argb| == 8 && argb[2..] != "000000"
    ensures KeptColor(argb, BLACK).Some? ==> KeptColor(argb, BLACK).value == "#" + argb[2..]
  {
    if |argb| == 8 {
      UpperAgainstCaseless("#" + argb[2..], BLACK);
      assert BLACK == "#" + "000000";
      if "#" + argb[2..] == BLACK {
        assert argb[2..] == ("#" + argb[2..])[1..];
      }
    }
  }

  /** A fill colour is dropped exactly when its RGB digits are `FFFFFF` in any case. */
  lemma WhiteKept(argb: string)
    ensures KeptColor(argb, WHITE).Some? <==> |argb| == 8 && Lower(argb[2..]) != "ffffff"
    ensures KeptColor(argb, WHITE).Some? ==> KeptColor(argb, WHITE).value == "#" + argb[2..]
  {
    if |argb| == 8 {
      var x := argb[2..];
      UpperAgainstUpper("#" + x, WHITE);
      LowerHash(x);
      LowerHash("FFFFFF");
      assert WHITE == "#" + "FFFFFF";
      assert Lower("FFFFFF") == "ffffff";
      if Lower(x) != "ffffff" {
        assert Lower("#" + x)[1..] == Lower(x);
      }
    }
  }

  lemma DefaultBlackDropped()
    ensures KeptColor("FF000000", BLACK) == None
  {
    assert "FF000000"[2..] == "000000";
    BlackKept("FF000000");
  }

  lemma DefaultWhiteDropped()
    ensures KeptColor("FFFFFFFF", WHITE) == None
    ensures KeptColor("00ffffff", WHITE) == None
  {
    assert "FFFFFFFF"[2..] == "FFFFFF";
    assert Lower("FFFFFF") == "ffffff";
    WhiteKept("FFFFFFFF");
    assert "00ffffff"[2..] == "ffffff";
    assert Lower("ffffff") == "ffffff";
    WhiteKept("00ffffff");
  }

  lemma RedKept()
    ensures KeptColor("FFFF0000", BLACK) == Some("#FF0000")
  {
    assert "FFFF0000"[2..] == "FF0000";
    BlackKept("FFFF0000");
    assert "#" + "FF0000" == "#FF0000";
  }
}
